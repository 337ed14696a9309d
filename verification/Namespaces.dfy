// One directory per native SCIM namespace, kept by the gates where a directory is created,
// imported or pointed at a native endpoint. Form fields arrive trimmed.

module Namespaces {
  import opened Common

  /** A native token as the bridge reads it; `Sealed` is one it holds no key for. */
  datatype Token = Clear(text: string) | Sealed(text: string)

  datatype Endpoint = Endpoint(url: string, token: Token, partitioned: bool)

  datatype Directory = Directory(id: Id, endpoint: Endpoint)

  /** The canonical form of a native URL; None: it does not parse. */
  type KeyOf = string -> Option<string>

  /** Both sides attest that the token is the tenant boundary, and the tokens really differ. */
  predicate TokenPartitionSplits(a: Endpoint, b: Endpoint) {
    && a.partitioned && b.partitioned
    && a.token.Clear? && b.token.Clear? && a.token.text != "" && b.token.text != "" && a.token != b.token
  }

  predicate SharesNativeNamespace(key: KeyOf, a: Endpoint, b: Endpoint) {
    if key(a.url).None? || key(b.url).None? then true
    else key(a.url) == key(b.url) && !TokenPartitionSplits(a, b)
  }

  predicate NativeNamespaceIsShared(key: KeyOf, ds: seq<Directory>, d: Directory) {
    exists o :: o in ds && o.id != d.id && o.endpoint.url != "" && SharesNativeNamespace(key, d.endpoint, o.endpoint)
  }

  ghost predicate DistinctIds(ds: seq<Directory>) {
    forall i, j :: 0 <= i < j < |ds| ==> ds[i].id != ds[j].id
  }

  /** Different canonical URLs, or both attested with distinct non-empty tokens. */
  predicate Apart(key: KeyOf, a: Endpoint, b: Endpoint) {
    a.url != "" && b.url != "" ==> key(a.url) != key(b.url) || TokenPartitionSplits(a, b)
  }

  predicate Addressable(key: KeyOf, e: Endpoint) {
    e.url != "" ==> key(e.url).Some?
  }

  /** No two directories that address a native app address the same one. */
  ghost predicate Disjoint(key: KeyOf, ds: seq<Directory>) {
    && (forall i :: 0 <= i < |ds| ==> Addressable(key, ds[i].endpoint))
    && (forall i, j :: 0 <= i < |ds| && 0 <= j < |ds| && i != j ==> Apart(key, ds[i].endpoint, ds[j].endpoint))
  }

  /** Disjointness is what the run-time guards ask about. */
  lemma DisjointMeansUnshared(key: KeyOf, ds: seq<Directory>)
    requires DistinctIds(ds)
    ensures Disjoint(key, ds)
      <==> forall d :: d in ds && d.endpoint.url != "" ==>
        key(d.endpoint.url).Some? && !NativeNamespaceIsShared(key, ds, d)
  {
    if Disjoint(key, ds) {
      forall d, o | d in ds && o in ds && d.endpoint.url != "" && o.endpoint.url != "" && o.id != d.id
        ensures !SharesNativeNamespace(key, d.endpoint, o.endpoint)
      {
        var i :| 0 <= i < |ds| && ds[i] == d;
        var j :| 0 <= j < |ds| && ds[j] == o;
        assert Apart(key, ds[i].endpoint, ds[j].endpoint);
      }
    } else if forall d :: d in ds && d.endpoint.url != "" ==> key(d.endpoint.url).Some? {
      assert forall i :: 0 <= i < |ds| ==> ds[i] in ds;
      var i, j :| 0 <= i < |ds| && 0 <= j < |ds| && i != j && !Apart(key, ds[i].endpoint, ds[j].endpoint);
      assert ds[i].id != ds[j].id;
      assert NativeNamespaceIsShared(key, ds, ds[i]);
    }
  }

  /** The endpoint can stand beside these directories. */
  ghost predicate Fits(key: KeyOf, ds: seq<Directory>, e: Endpoint) {
    Addressable(key, e) && forall i :: 0 <= i < |ds| ==> Apart(key, e, ds[i].endpoint)
  }

  lemma AddingFits(key: KeyOf, ds: seq<Directory>, d: Directory)
    requires Disjoint(key, ds)
    ensures Disjoint(key, ds + [d]) <==> Fits(key, ds, d.endpoint)
  {
    var next := ds + [d];
    assert forall i :: 0 <= i < |ds| ==> next[i] == ds[i];
    assert next[|ds|] == d;
  }

  /** Dropping directories, in particular the one being saved, keeps the rest disjoint. */
  lemma FewerStayDisjoint(key: KeyOf, ds: seq<Directory>, at: nat)
    requires Disjoint(key, ds) && at < |ds|
    ensures Disjoint(key, ds[..at] + ds[at + 1..])
  {
    var rest := ds[..at] + ds[at + 1..];
    assert forall i :: 0 <= i < |rest| ==> rest[i] == ds[if i < at then i else i + 1];
  }

  /** A directory moved where it fits among the others leaves them all disjoint, and only then. */
  lemma ReplacingFits(key: KeyOf, ds: seq<Directory>, at: nat, d: Directory)
    requires Disjoint(key, ds) && at < |ds|
    ensures Disjoint(key, ds[at := d]) <==> Fits(key, ds[..at] + ds[at + 1..], d.endpoint)
  {
    var rest, next := ds[..at] + ds[at + 1..], ds[at := d];
    assert forall i :: 0 <= i < |rest| ==> rest[i] == next[if i < at then i else i + 1];
    assert next[at] == d;
    if Fits(key, rest, d.endpoint) {
      forall i | 0 <= i < |next| && i != at
        ensures next[i] == ds[i] && Apart(key, d.endpoint, next[i].endpoint) && Apart(key, next[i].endpoint, d.endpoint)
      {
        assert rest[if i < at then i else i - 1] == next[i];
      }
    }
  }

  // ---------------------------------------------------------------- the panel's gates

  const MIN_PROXY_TOKEN_LENGTH := 16

  /** A directory to be; `id` is the one the database will give it. */
  datatype Row = Row(id: Id, name: string, url: string, token: string, workosUrl: string, proxyToken: string)

  /** It has a name, and a proxy token of its own is not cut short. */
  predicate Admitted(r: Row) {
    r.name != "" && (r.proxyToken == "" || |r.proxyToken| >= MIN_PROXY_TOKEN_LENGTH)
  }

  /** Both endpoints may be dialled; a native one that is not known yet is not looked at. */
  predicate Usable(safe: string -> bool, r: Row) {
    safe(r.workosUrl) && (r.url == "" || safe(r.url))
  }

  function Stored(r: Row): Endpoint {
    Endpoint(r.url, Clear(r.token), false)
  }

  /** The rows that pass the name and token gate, in file order. */
  function Candidates(rows: seq<Row>): seq<Row> {
    if rows == [] then []
    else Candidates(rows[..|rows| - 1]) + (if Admitted(rows[|rows| - 1]) then [rows[|rows| - 1]] else [])
  }

  class Panel {
    const key: KeyOf
    const safe: string -> bool            // validateUpstreamUrl accepts it
    var directories: seq<Directory>

    /** `checkNativeNamespace` has nothing to object to. */
    method CheckNativeNamespace(e: Endpoint, others: seq<Directory>) returns (ok: bool)
      requires key("").None?
      ensures ok <==> Fits(key, others, e)
    {
      if e.url == "" {
        return true;
      }
      if key(e.url).None? {
        return false;
      }
      for i := 0 to |others|
        invariant forall j :: 0 <= j < i ==> Apart(key, e, others[j].endpoint)
      {
        if key(others[i].endpoint.url) == key(e.url) && !TokenPartitionSplits(e, others[i].endpoint) {
          assert !Apart(key, e, others[i].endpoint);
          return false;
        }
      }
      ok := true;
    }

    /** Created exactly if name and token pass, both endpoints may be dialled, no namespace would be
        shared, and the database takes the row. A new directory is never attested. */
    method CreateDirectory(row: Row, inserted: bool) returns (ok: bool)
      requires key("").None? && Disjoint(key, directories)
      modifies this
      ensures Disjoint(key, directories)
      ensures var with := old(directories) + [Directory(row.id, Stored(row))];
        && (ok <==> Admitted(row) && safe(row.url) && safe(row.workosUrl) && Disjoint(key, with) && inserted)
        && directories == if ok then with else old(directories)
    {
      AddingFits(key, directories, Directory(row.id, Stored(row)));
      if !Admitted(row) || !safe(row.url) || !safe(row.workosUrl) {
        return false;
      }
      ok := CheckNativeNamespace(Stored(row), directories);
      if ok {
        ok := inserted;
      }
      if ok {
        directories := directories + [Directory(row.id, Stored(row))];
      }
    }

    /** The whole-file gate: what would be refused, row by row, against the rows accepted before
        and against the directories stored. */
    method CsvNamespaceRefusals(rows: seq<Row>) returns (refusals: nat)
      requires key("").None? && Disjoint(key, directories)
      ensures refusals == 0 <==> (forall r :: r in rows ==> Usable(safe, r)) && Disjoint(key, directories + Named(rows))
    {
      refusals := 0;
      var accepted: seq<Directory> := [];
      assert directories + Named(rows[..0]) == directories;
      for i := 0 to |rows|
        invariant refusals == 0 ==>
          (forall r :: r in rows[..i] ==> Usable(safe, r)) && Disjoint(key, directories + Named(rows[..i]))
        invariant refusals == 0 ==> SameNamespaces(accepted, Named(rows[..i]))
        invariant refusals > 0 ==>
          !((forall r :: r in rows ==> Usable(safe, r)) && Disjoint(key, directories + Named(rows)))
      {
        var row, e := rows[i], Stored(rows[i]);
        ghost var so := directories + Named(rows[..i]);
        NamedGrows(rows, i);
        assert so + [Directory(row.id, e)] == directories + Named(rows[..i + 1]);
        if refusals == 0 {
          AddingFits(key, so, Directory(row.id, e));
          FitsBesideBoth(key, directories, Named(rows[..i]), accepted, e);
        }
        var twin := CheckNativeNamespace(e, accepted);
        var stored := CheckNativeNamespace(e, directories);
        if !safe(row.workosUrl) || (row.url != "" && (!safe(row.url) || !twin || !stored)) {
          if refusals == 0 && Usable(safe, row) {
            PrefixDisjoint(key, directories, rows, i + 1);
          }
          refusals := refusals + 1;
        } else if row.url != "" {
          accepted := accepted + [Directory(row.id, e)];
        }
      }
      assert rows[..|rows|] == rows;
    }

    /** The candidates of a file are imported all together as far as namespaces go; `inserted` says
        which inserts the database took. */
    method BulkImport(rows: seq<Row>, inserted: seq<bool>) returns (ok: bool)
      requires |inserted| == |Candidates(rows)| && key("").None? && Disjoint(key, directories)
      modifies this
      ensures Disjoint(key, directories)
      ensures ok <==> rows != [] && (forall r :: r in Candidates(rows) ==> Usable(safe, r))
                      && Disjoint(key, old(directories) + Named(Candidates(rows)))
      ensures directories == old(directories) + (if ok then Taken(Named(Candidates(rows)), inserted) else [])
    {
      if rows == [] {
        return false;
      }
      var candidates: seq<Row> := [];
      for i := 0 to |rows|
        invariant candidates == Candidates(rows[..i])
      {
        assert rows[..i + 1][..i] == rows[..i];
        if Admitted(rows[i]) {
          candidates := candidates + [rows[i]];
        }
      }
      assert rows[..|rows|] == rows;
      var refusals := CsvNamespaceRefusals(candidates);
      if refusals > 0 {
        return false;
      }
      InsertAll(candidates, inserted);
      ok := true;
    }

    method InsertAll(rows: seq<Row>, inserted: seq<bool>)
      requires |inserted| == |rows| && Disjoint(key, directories + Named(rows))
      modifies this
      ensures Disjoint(key, directories) && directories == old(directories) + Taken(Named(rows), inserted)
    {
      ghost var named := Named(rows);
      TakenStayDisjoint(key, directories, named, inserted);
      for i := 0 to |rows|
        invariant directories == old(directories) + Taken(named[..i], inserted[..i])
      {
        assert named[..i + 1][..i] == named[..i] && inserted[..i + 1][..i] == inserted[..i];
        if inserted[i] {
          directories := directories + [Directory(rows[i].id, Stored(rows[i]))];
        }
      }
      assert named[..|rows|] == named && inserted[..|rows|] == inserted;
    }

    /** Moving a directory, or changing its token or attestation, is refused exactly if the endpoint
        is unsafe or the directories would no longer be disjoint. */
    method SaveNative(at: nat, e: Endpoint) returns (ok: bool)
      requires key("").None? && Disjoint(key, directories) && at < |directories|
      modifies this
      ensures Disjoint(key, directories)
      ensures var with := old(directories)[at := old(directories)[at].(endpoint := e)];
        && (ok <==> safe(e.url) && Disjoint(key, with))
        && directories == if ok then with else old(directories)
    {
      ReplacingFits(key, directories, at, directories[at].(endpoint := e));
      if !safe(e.url) {
        return false;
      }
      ok := CheckNativeNamespace(e, directories[..at] + directories[at + 1..]);
      if ok {
        directories := directories[at := directories[at].(endpoint := e)];
      }
    }

    /** `demo`: demo mode is on, and the simulators drive this directory. It is not deleted then. */
    method DeleteDirectory(at: nat, demo: bool) returns (ok: bool)
      requires Disjoint(key, directories) && at < |directories|
      modifies this
      ensures ok <==> !demo
      ensures directories == if demo then old(directories) else old(directories)[..at] + old(directories)[at + 1..]
      ensures Disjoint(key, directories)
    {
      if demo {
        return false;
      }
      ok := true;
      FewerStayDisjoint(key, directories, at);
      directories := directories[..at] + directories[at + 1..];
    }
  }

  /** The same directories, but for those that address nothing. */
  ghost predicate SameNamespaces(accepted: seq<Directory>, named: seq<Directory>) {
    && (forall d :: d in accepted ==> d in named)
    && (forall d :: d in named && d.endpoint.url != "" ==> d in accepted)
  }

  lemma FitsBesideBoth(key: KeyOf, ds: seq<Directory>, named: seq<Directory>, accepted: seq<Directory>, e: Endpoint)
    requires SameNamespaces(accepted, named)
    ensures Fits(key, ds + named, e) <==> Fits(key, accepted, e) && Fits(key, ds, e)
  {
    FitsAll(key, ds + named, e);
    FitsAll(key, accepted, e);
    FitsAll(key, ds, e);
  }

  lemma FitsAll(key: KeyOf, ds: seq<Directory>, e: Endpoint)
    ensures Fits(key, ds, e) <==> Addressable(key, e) && forall d :: d in ds ==> Apart(key, e, d.endpoint)
  {
    assert forall i :: 0 <= i < |ds| ==> ds[i] in ds;
  }

  function Named(rows: seq<Row>): seq<Directory> {
    seq(|rows|, i requires 0 <= i < |rows| => Directory(rows[i].id, Stored(rows[i])))
  }

  lemma NamedGrows(rows: seq<Row>, i: nat)
    requires i < |rows|
    ensures Named(rows[..i + 1]) == Named(rows[..i]) + [Directory(rows[i].id, Stored(rows[i]))]
  {
  }

  lemma PrefixDisjoint(key: KeyOf, ds: seq<Directory>, rows: seq<Row>, n: nat)
    requires n <= |rows|
    ensures Disjoint(key, ds + Named(rows)) ==> Disjoint(key, ds + Named(rows[..n]))
  {
    var all, part := ds + Named(rows), ds + Named(rows[..n]);
    assert forall i :: 0 <= i < |part| ==> part[i] == all[i];
  }

  function Taken(named: seq<Directory>, inserted: seq<bool>): seq<Directory>
    requires |named| == |inserted|
  {
    if named == [] then []
    else
      var n := |named| - 1;
      Taken(named[..n], inserted[..n]) + (if inserted[n] then [named[n]] else [])
  }

  /** A part of what may be added may be added. */
  lemma {:induction false} TakenStayDisjoint(key: KeyOf, ds: seq<Directory>, named: seq<Directory>, inserted: seq<bool>)
    requires |named| == |inserted| && Disjoint(key, ds + named)
    ensures Disjoint(key, ds + Taken(named, inserted))
    ensures forall e :: Fits(key, ds + named, e) ==> Fits(key, ds + Taken(named, inserted), e)
  {
    if named == [] {
      assert ds + named == ds + Taken(named, inserted);
    } else {
      var n := |named| - 1;
      var before, d := ds + named[..n], named[n];
      assert ds + named == before + [d];
      assert forall i :: 0 <= i < |before| ==> (before + [d])[i] == before[i];
      AddingFits(key, before, d);
      TakenStayDisjoint(key, ds, named[..n], inserted[..n]);
      var part := ds + Taken(named[..n], inserted[..n]);
      AddingFits(key, part, d);
      assert ds + Taken(named, inserted) == part + (if inserted[n] then [d] else []);
      forall e | Fits(key, ds + named, e)
        ensures Fits(key, ds + Taken(named, inserted), e)
      {
        assert Apart(key, e, (before + [d])[|before|].endpoint);
        assert Fits(key, before, e);
      }
    }
  }

  // ---------------------------------------------------------------- any sequence of changes

  datatype Op = Create(row: Row, accepted: bool) | Import(rows: seq<Row>, inserted: seq<bool>)
              | Save(at: nat, endpoint: Endpoint) | Delete(at: nat, demo: bool)

  /** What the panel's methods above do with each change. */
  ghost function Step(key: KeyOf, safe: string -> bool, ds: seq<Directory>, op: Op): seq<Directory> {
    match op
    case Create(row, accepted) =>
      if Admitted(row) && safe(row.url) && safe(row.workosUrl) && Fits(key, ds, Stored(row)) && accepted
      then ds + [Directory(row.id, Stored(row))] else ds
    case Import(rows, inserted) =>
      var candidates := Candidates(rows);
      if |inserted| == |candidates| && (forall r :: r in candidates ==> Usable(safe, r)) &&
        Disjoint(key, ds + Named(candidates))
      then ds + Taken(Named(candidates), inserted) else ds
    case Save(at, e) =>
      if at < |ds| && safe(e.url) && Fits(key, ds[..at] + ds[at + 1..], e) then ds[at := ds[at].(endpoint := e)] else ds
    case Delete(at, demo) =>
      if at < |ds| && !demo then ds[..at] + ds[at + 1..] else ds
  }

  ghost function Run(key: KeyOf, safe: string -> bool, ops: seq<Op>): seq<Directory> {
    if ops == [] then [] else Step(key, safe, Run(key, safe, ops[..|ops| - 1]), ops[|ops| - 1])
  }

  /** Whatever creates, imports, saves and deletes an installation has seen, no directory with a
      native URL shares its namespace. */
  lemma {:induction false} NeverShared(key: KeyOf, safe: string -> bool, ops: seq<Op>)
    ensures Disjoint(key, Run(key, safe, ops))
    ensures DistinctIds(Run(key, safe, ops)) ==> forall d :: d in Run(key, safe, ops) && d.endpoint.url != "" ==>
      !NativeNamespaceIsShared(key, Run(key, safe, ops), d)
  {
    if ops != [] {
      var before, op := Run(key, safe, ops[..|ops| - 1]), ops[|ops| - 1];
      NeverShared(key, safe, ops[..|ops| - 1]);
      match op
      case Create(row, _) => AddingFits(key, before, Directory(row.id, Stored(row)));
      case Import(rows, inserted) =>
        if |inserted| == |Candidates(rows)| && Disjoint(key, before + Named(Candidates(rows))) {
          TakenStayDisjoint(key, before, Named(Candidates(rows)), inserted);
        }
      case Save(at, e) =>
        if at < |before| {
          ReplacingFits(key, before, at, before[at].(endpoint := e));
        }
      case Delete(at, _) =>
        if at < |before| {
          FewerStayDisjoint(key, before, at);
        }
    }
    if DistinctIds(Run(key, safe, ops)) {
      DisjointMeansUnshared(key, Run(key, safe, ops));
    }
  }
}
