// The two-way id maps a directory's traffic is translated through, read from `id_mappings`.

module IdMaps {
  import opened Common
  import opened ScimJson

  datatype Row = Row(kind: Kind, nativeId: Id, workosId: Id)

  type Key = (Kind, Id)

  /** `contested` holds every id that shares a WorkOS id with another, on both sides. */
  datatype CheckedMaps = CheckedMaps(toWorkos: map<Key, Id>, toNative: map<Key, Id>, contested: set<Key>)

  datatype Direction = ToWorkos | ToNative

  datatype Answer = Rejected | Mapped(id: Id) | Unmapped

  function Lookup(m: CheckedMaps, d: Direction, key: Key): Answer {
    if key in m.contested then Rejected
    else
      var table := if d.ToWorkos? then m.toWorkos else m.toNative;
      if key in table then Mapped(table[key]) else Unmapped
  }

  /** `id_mappings` is keyed by the native id. */
  ghost predicate UniqueNatives(rows: set<Row>) {
    forall r, q :: r in rows && q in rows && r.kind == q.kind && r.nativeId == q.nativeId ==> r == q
  }

  predicate Share(r: Row, q: Row) {
    r != q && r.kind == q.kind && r.workosId == q.workosId
  }

  /** The id belongs to a row whose WorkOS id another row has too. */
  predicate Contested(rows: set<Row>, key: Key) {
    exists r, q :: r in rows && q in rows && Share(r, q) && key.0 == r.kind &&
      (key.1 == r.workosId || key.1 == r.nativeId)
  }

  /** What a lookup should answer, whatever order the rows were read in. */
  ghost predicate Answers(rows: set<Row>, d: Direction, key: Key, a: Answer) {
    match a
    case Rejected => Contested(rows, key)
    case Mapped(id) =>
      && !Contested(rows, key)
      && (if d.ToWorkos? then Row(key.0, key.1, id) else Row(key.0, id, key.1)) in rows
    case Unmapped =>
      && !Contested(rows, key)
      && forall r :: r in rows && r.kind == key.0 ==> (if d.ToWorkos? then r.nativeId else r.workosId) != key.1
  }

  ghost predicate NativesLoaded(done: seq<Row>, toWorkos: map<Key, Id>) {
    && (forall key :: key in toWorkos ==> Row(key.0, key.1, toWorkos[key]) in done)
    && (forall r :: r in done ==> Get(toWorkos, (r.kind, r.nativeId)) == Some(r.workosId))
  }

  /** Each WorkOS id leads to the first row that has it. */
  ghost predicate OwnersLoaded(done: seq<Row>, toNative: map<Key, Id>) {
    && (forall key :: key in toNative ==> Row(key.0, toNative[key], key.1) in done)
    && (forall r :: r in done ==> (r.kind, r.workosId) in toNative)
  }

  ghost predicate DisputesLoaded(done: seq<Row>, contested: set<Key>) {
    forall key :: key in contested <==> Contested(Elements(done), key)
  }

  ghost predicate Loaded(done: seq<Row>, m: CheckedMaps) {
    NativesLoaded(done, m.toWorkos) && OwnersLoaded(done, m.toNative) && DisputesLoaded(done, m.contested)
  }

  /** The ids a further row brings into dispute: it is compared with the first owner only. */
  function Disputed(m: CheckedMaps, row: Row): set<Key> {
    var workos := (row.kind, row.workosId);
    if workos in m.toNative && m.toNative[workos] != row.nativeId
    then {workos, (row.kind, m.toNative[workos]), (row.kind, row.nativeId)} else {}
  }

  lemma DisputedAreContested(done: seq<Row>, row: Row, m: CheckedMaps, key: Key)
    requires OwnersLoaded(done, m.toNative) && key in Disputed(m, row)
    ensures Contested(Elements(done) + {row}, key)
  {
    var first := Row(row.kind, m.toNative[(row.kind, row.workosId)], row.workosId);
    assert first in done && Share(first, row) && Share(row, first);
  }

  lemma ContestedAreDisputed(done: seq<Row>, row: Row, m: CheckedMaps, key: Key)
    requires OwnersLoaded(done, m.toNative) && DisputesLoaded(done, m.contested)
    requires row !in done && UniqueNatives(Elements(done) + {row})
    requires Contested(Elements(done) + {row}, key)
    ensures key in m.contested || key in Disputed(m, row)
  {
    var r, q :| r in Elements(done) + {row} && q in Elements(done) + {row} && Share(r, q) && key.0 == r.kind
                && (key.1 == r.workosId || key.1 == r.nativeId);
    if r == row || q == row {
      var earlier := if r == row then q else r;
      var first := Row(row.kind, m.toNative[(row.kind, row.workosId)], row.workosId);
      assert earlier in done && first in done && first != row;
      if earlier != first {
        assert Share(earlier, first);
      }
    } else {
      assert Contested(Elements(done), key);
    }
  }

  lemma DisputesStayLoaded(done: seq<Row>, row: Row, m: CheckedMaps)
    requires OwnersLoaded(done, m.toNative) && DisputesLoaded(done, m.contested)
    requires row !in done && UniqueNatives(Elements(done) + {row})
    ensures DisputesLoaded(done + [row], m.contested + Disputed(m, row))
  {
    assert Elements(done + [row]) == Elements(done) + {row};
    forall key
      ensures key in m.contested + Disputed(m, row) <==> Contested(Elements(done) + {row}, key)
    {
      if key in Disputed(m, row) {
        DisputedAreContested(done, row, m, key);
      } else if key in m.contested {
        StillContested(Elements(done), row, key);
      } else if Contested(Elements(done) + {row}, key) {
        ContestedAreDisputed(done, row, m, key);
      }
    }
  }

  lemma StillContested(rows: set<Row>, row: Row, key: Key)
    requires Contested(rows, key)
    ensures Contested(rows + {row}, key)
  {
    var r, q :| r in rows && q in rows && Share(r, q) && key.0 == r.kind &&
      (key.1 == r.workosId || key.1 == r.nativeId);
    assert r in rows + {row} && q in rows + {row};
  }

  lemma NativesStayLoaded(done: seq<Row>, row: Row, toWorkos: map<Key, Id>)
    requires NativesLoaded(done, toWorkos) && row !in done && UniqueNatives(Elements(done) + {row})
    ensures NativesLoaded(done + [row], toWorkos[(row.kind, row.nativeId) := row.workosId])
  {
    forall r | r in done
      ensures (r.kind, r.nativeId) != (row.kind, row.nativeId)
    {
      assert r in Elements(done) + {row};
    }
  }

  lemma OwnersStayLoaded(done: seq<Row>, row: Row, toNative: map<Key, Id>)
    requires OwnersLoaded(done, toNative)
    ensures OwnersLoaded(done + [row], if (row.kind, row.workosId) in toNative then toNative
      else toNative[(row.kind, row.workosId) := row.nativeId])
  {
  }

  lemma LoadedAnswers(rows: seq<Row>, m: CheckedMaps, d: Direction, key: Key)
    requires UniqueNatives(Elements(rows)) && Loaded(rows, m)
    ensures Answers(Elements(rows), d, key, Lookup(m, d, key))
  {
    if key !in m.contested && Lookup(m, d, key).Unmapped? {
      forall r | r in Elements(rows) && r.kind == key.0
        ensures (if d.ToWorkos? then r.nativeId else r.workosId) != key.1
      {
        assert r in rows;
      }
    }
  }

  method LoadIdMaps(rows: seq<Row>) returns (m: CheckedMaps)
    requires UniqueNatives(Elements(rows)) && forall i, j :: 0 <= i < j < |rows| ==> rows[i] != rows[j]
    ensures forall d, key :: Answers(Elements(rows), d, key, Lookup(m, d, key))
  {
    m := CheckedMaps(map[], map[], {});
    for i := 0 to |rows|
      invariant Loaded(rows[..i], m)
    {
      var row := rows[i];
      ghost var before := m;
      var workos, native := (row.kind, row.workosId), (row.kind, row.nativeId);
      var contested := m.contested;
      if workos in m.toNative && m.toNative[workos] != row.nativeId {
        contested := contested + {workos, (row.kind, m.toNative[workos]), native};
      }
      m := CheckedMaps(m.toWorkos[native := row.workosId],
                       if workos in m.toNative then m.toNative else m.toNative[workos := row.nativeId],
                       contested);
      FirstRows(rows, i);
      NativesStayLoaded(rows[..i], row, before.toWorkos);
      OwnersStayLoaded(rows[..i], row, before.toNative);
      DisputesStayLoaded(rows[..i], row, before);
    }
    assert rows[..|rows|] == rows;
    forall d, key
      ensures Answers(Elements(rows), d, key, Lookup(m, d, key))
    {
      LoadedAnswers(rows, m, d, key);
    }
  }

  lemma FirstRows(rows: seq<Row>, i: nat)
    requires i < |rows| && UniqueNatives(Elements(rows)) && forall i, j :: 0 <= i < j < |rows| ==> rows[i] != rows[j]
    ensures rows[..i + 1] == rows[..i] + [rows[i]]
    ensures rows[i] !in rows[..i] && UniqueNatives(Elements(rows[..i]) + {rows[i]})
  {
    assert Elements(rows[..i]) + {rows[i]} <= Elements(rows);
  }

  // ---------------------------------------------------------------- what the maps are good for

  /** The answers depend on the rows, not on the order they were read in. */
  lemma OneAnswerEach(rows: set<Row>, d: Direction, key: Key, a: Answer, b: Answer)
    requires UniqueNatives(rows)
    requires Answers(rows, d, key, a) && Answers(rows, d, key, b)
    ensures a == b
  {
    if a.Mapped? && b.Mapped? && d.ToNative? && a != b {
      var r, q := Row(key.0, a.id, key.1), Row(key.0, b.id, key.1);
      assert Share(r, q);
    }
  }

  ghost predicate Correct(rows: set<Row>, m: CheckedMaps) {
    UniqueNatives(rows) && forall d, key :: Answers(rows, d, key, Lookup(m, d, key))
  }

  /** Among ids nobody contests, the two directions are mutual inverses. */
  lemma MutualInverses(rows: set<Row>, m: CheckedMaps, k: Kind, n: Id, w: Id)
    requires Correct(rows, m)
    requires (k, n) !in m.contested && (k, w) !in m.contested
    ensures Lookup(m, ToWorkos, (k, n)) == Mapped(w) <==> Lookup(m, ToNative, (k, w)) == Mapped(n)
  {
    assert Answers(rows, ToWorkos, (k, n), Lookup(m, ToWorkos, (k, n)));
    assert Answers(rows, ToNative, (k, w), Lookup(m, ToNative, (k, w)));
    if Row(k, n, w) in rows {
      assert Row(k, n, w).nativeId == n && Row(k, n, w).workosId == w;
      OneAnswerEach(rows, ToWorkos, (k, n), Lookup(m, ToWorkos, (k, n)), Mapped(w));
      OneAnswerEach(rows, ToNative, (k, w), Lookup(m, ToNative, (k, w)), Mapped(n));
    }
  }

  /** An unmapped id stands for itself; a contested one is refused. */
  function Translate(m: CheckedMaps, d: Direction, kind: Kind, id: Id): Option<Id> {
    match Lookup(m, d, (kind, id))
    case Rejected => None
    case Mapped(other) => Some(other)
    case Unmapped => Some(id)
  }

  /** A group member as the translator sees it: an id to translate, or something it passes over. */
  predicate HasMemberId(entry: Json) {
    entry.Obj? && "value" in entry.fields && entry.fields["value"].Str?
  }

  function TranslateMembers(m: CheckedMaps, d: Direction, entries: seq<Json>): Option<seq<Json>> {
    if entries == [] then Some([])
    else
      var rest := TranslateMembers(m, d, entries[1..]);
      if !HasMemberId(entries[0]) then
        if rest.None? then None else Some([entries[0]] + rest.value)
      else
        var id := Translate(m, d, Users, entries[0].fields["value"].s);
        if id.None? || rest.None? then None
        else Some([Obj(entries[0].fields["value" := Str(id.value)])] + rest.value)
  }

  predicate HasId(body: Body) {
    "id" in body && body["id"].Str?
  }

  predicate HasMembers(body: Body) {
    "members" in body && body["members"].Arr?
  }

  function TranslateOwnId(m: CheckedMaps, d: Direction, kind: Kind, body: Body): Option<Body> {
    if !HasId(body) then Some(body)
    else
      var id := Translate(m, d, kind, body["id"].s);
      if id.None? then None else Some(body["id" := Str(id.value)])
  }

  function TranslateMemberIds(m: CheckedMaps, d: Direction, body: Body): Option<Body> {
    if !HasMembers(body) then Some(body)
    else
      var members := TranslateMembers(m, d, body["members"].items);
      if members.None? then None else Some(body["members" := Arr(members.value)])
  }

  /** A resource's own id and its members' ids. None: a contested id, the request is refused. */
  function TranslateResource(m: CheckedMaps, d: Direction, kind: Kind, body: Body): Option<Body> {
    var own := TranslateOwnId(m, d, kind, body);
    if own.None? then None else TranslateMemberIds(m, d, own.value)
  }

  /** An id that comes back from WorkOS space as it went in: mapped both ways undisputed, or not
      mapped and not the spelling of a WorkOS id. */
  predicate ComesBack(m: CheckedMaps, kind: Kind, id: Id) {
    match Lookup(m, ToWorkos, (kind, id))
    case Rejected => false
    case Mapped(w) => (kind, w) !in m.contested
    case Unmapped => Lookup(m, ToNative, (kind, id)).Unmapped?
  }

  lemma IdRoundTrip(rows: set<Row>, m: CheckedMaps, kind: Kind, id: Id)
    requires Correct(rows, m)
    ensures var there := Translate(m, ToWorkos, kind, id);
      (there.Some? && Translate(m, ToNative, kind, there.value) == Some(id)) <==> ComesBack(m, kind, id)
  {
    match Lookup(m, ToWorkos, (kind, id))
    case Rejected =>
    case Mapped(w) =>
      if (kind, w) !in m.contested {
        MutualInverses(rows, m, kind, id, w);
      }
    case Unmapped =>
      var back := Lookup(m, ToNative, (kind, id));
      if back == Mapped(id) {
        MutualInverses(rows, m, kind, id, id);
      }
  }

  lemma {:induction false} MembersRoundTrip(rows: set<Row>, m: CheckedMaps, entries: seq<Json>)
    requires Correct(rows, m)
    ensures var there := TranslateMembers(m, ToWorkos, entries);
      (there.Some? && TranslateMembers(m, ToNative, there.value) == Some(entries))
      <==> (forall e :: e in entries && HasMemberId(e) ==> ComesBack(m, Users, e.fields["value"].s))
  {
    if entries != [] {
      MembersRoundTrip(rows, m, entries[1..]);
      var e, there := entries[0], TranslateMembers(m, ToWorkos, entries);
      assert entries == [e] + entries[1..];
      if HasMemberId(e) {
        IdRoundTrip(rows, m, Users, e.fields["value"].s);
      }
      if there.Some? {
        assert there.value[1..] == TranslateMembers(m, ToWorkos, entries[1..]).value;
        if HasMemberId(e) {
          var id := Translate(m, ToWorkos, Users, e.fields["value"].s).value;
          assert there.value[0] == Obj(e.fields["value" := Str(id)]) && HasMemberId(there.value[0]);
          var back := Translate(m, ToNative, Users, id);
          assert back.Some? ==>
            e.fields["value" := Str(id)]["value" := Str(back.value)] == e.fields["value" := Str(back.value)];
          assert e.fields["value" := e.fields["value"]] == e.fields;
          assert back.Some? && e.fields["value" := Str(back.value)] == e.fields ==>
            Str(back.value) == e.fields["value"];
        } else {
          assert there.value[0] == e;
        }
      }
    }
  }

  predicate MembersComeBack(m: CheckedMaps, body: Body) {
    HasMembers(body) ==> forall e :: e in body["members"].items && HasMemberId(e) ==>
      ComesBack(m, Users, e.fields["value"].s)
  }

  /** A resource without its own id and its members. */
  function Rest(body: Body): Body {
    body - {"id", "members"}
  }

  lemma OneField(m: CheckedMaps, d: Direction, kind: Kind, body: Body)
    requires TranslateResource(m, d, kind, body).Some?
    ensures var next := TranslateResource(m, d, kind, body).value;
      && Rest(next) == Rest(body) && HasId(next) == HasId(body) && HasMembers(next) == HasMembers(body)
      && next.Keys == body.Keys
      && ("id" in body ==> next["id"] == if HasId(body) then Str(Translate(m, d, kind, body["id"].s).value)
        else body["id"])
      && ("members" in body ==> next["members"] == if HasMembers(body)
        then Arr(TranslateMembers(m, d, body["members"].items).value) else body["members"])
  {
  }

  lemma SameFields(a: Body, b: Body)
    requires a.Keys == b.Keys && Rest(a) == Rest(b)
    ensures a == b <==> ("id" in a ==> a["id"] == b["id"]) && ("members" in a ==> a["members"] == b["members"])
  {
    if ("id" in a ==> a["id"] == b["id"]) && ("members" in a ==> a["members"] == b["members"]) {
      forall k | k in a
        ensures a[k] == b[k]
      {
        if k != "id" && k != "members" {
          assert k in Rest(a) && Rest(a)[k] == a[k] && Rest(b)[k] == b[k];
        }
      }
    }
  }

  /** Translating a resource to WorkOS space and back gives it back exactly when all its ids come
      back; a group whose id and members are mapped and uncontested is one such resource. */
  lemma ResourceRoundTrip(rows: set<Row>, m: CheckedMaps, kind: Kind, body: Body)
    requires Correct(rows, m)
    ensures var there := TranslateResource(m, ToWorkos, kind, body);
      (there.Some? && TranslateResource(m, ToNative, kind, there.value) == Some(body))
      <==> (HasId(body) ==> ComesBack(m, kind, body["id"].s)) && MembersComeBack(m, body)
  {
    if HasId(body) {
      IdRoundTrip(rows, m, kind, body["id"].s);
    }
    if HasMembers(body) {
      MembersRoundTrip(rows, m, body["members"].items);
    }
    var there := TranslateResource(m, ToWorkos, kind, body);
    if there.Some? {
      OneField(m, ToWorkos, kind, body);
      var back := TranslateResource(m, ToNative, kind, there.value);
      if back.Some? {
        OneField(m, ToNative, kind, there.value);
        SameFields(back.value, body);
      }
    }
  }
}
