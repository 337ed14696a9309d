// Vocabulary shared by every module: identifiers, mappings, and what an upstream
// answer does and does not prove.

module Common {
  datatype Option<+T> = None | Some(value: T)

  /** A SCIM resource id. Native ids and WorkOS ids are both plain strings. */
  type Id = string

  /** `migrated-id`: both sides address the resource by one id.
      `fallback-post`: WorkOS holds it under an id of its own. */
  datatype Strategy = MigratedId | FallbackPost

  /** A row of `id_mappings` without its key (directory, kind, native id). */
  datatype Mapping = Mapping(workosId: Id, strategy: Strategy)

  /** What an id says about the strategy that gave it: equal ids are migrated ids. */
  function StrategyOf(nativeId: Id, workosId: Id): Strategy {
    if nativeId == workosId then MigratedId else FallbackPost
  }

  /** How a WorkOS endpoint treats the migrated id of a POST: `PostCreate` adopts it, `Minting` makes
      up an id of its own. */
  datatype Contract = PostCreate | Minting

  type MappingTable = map<Id, Mapping>

  function Elements<T(==)>(s: seq<T>): set<T> {
    set x | x in s
  }

  function Get<K, V>(m: map<K, V>, k: K): Option<V> {
    if k in m then Some(m[k]) else None
  }

  /** Case folding as the stores compare names: ASCII letters only. */
  function Lower(s: string): string {
    seq(|s|, i requires 0 <= i < |s| => if 'A' <= s[i] <= 'Z' then s[i] - 'A' + 'a' else s[i])
  }

  /** No two native ids own one WorkOS id. */
  ghost predicate Injective(maps: MappingTable) {
    forall a, b :: a in maps && b in maps && maps[a].workosId == maps[b].workosId ==> a == b
  }

  /** The mapping rows that name this WorkOS id. */
  function Owners(maps: MappingTable, workosId: Id): set<Id> {
    set n | n in maps && maps[n].workosId == workosId
  }

  predicate Owned(maps: MappingTable, workosId: Id) {
    exists n :: n in maps && maps[n].workosId == workosId
  }

  /** Two stored rows own the WorkOS id: a legacy table, which a lookup by that id refuses to read. */
  predicate Ambiguous(maps: MappingTable, workosId: Id) {
    exists a, b :: a in maps && b in maps && a != b && maps[a].workosId == workosId && maps[b].workosId == workosId
  }

  /** Some other native id already owns this WorkOS id. */
  predicate OwnedByAnother(maps: MappingTable, workosId: Id, nativeId: Id) {
    exists n :: n in maps && n != nativeId && maps[n].workosId == workosId
  }
}

/** HTTP outcomes of one upstream call. */
module Upstream {
  import opened Common

  /** `NoAnswer` is a thrown fetch: refused, timed out, or cut off mid-response. */
  datatype Answer = NoAnswer | Status(code: nat)

  predicate Success(a: Answer) {
    a.Status? && 200 <= a.code < 300
  }

  predicate NotFound(a: Answer) {
    a == Status(404)
  }

  predicate ClientError(a: Answer) {
    a.Status? && 400 <= a.code < 500
  }

  /** The upstream refused the call: every 4xx but a timeout. */
  predicate Refused(a: Answer) {
    ClientError(a) && a.code != 408
  }

  /** A create that neither landed nor ran into an existing resource. */
  predicate DefinitiveRejection(a: Answer) {
    Refused(a) && a.code != 409
  }

  /** A DELETE answer after which nothing is still pending on that side. */
  predicate CertainDelete(a: Answer) {
    a == Status(200) || a == Status(204) || Refused(a)
  }

  /** A DELETE answer that accepts the request without confirming it. */
  predicate IncompleteDelete(a: Answer) {
    a.Status? && 200 <= a.code < 400 && a.code != 200 && a.code != 204
  }

  /** A DELETE answer that proves the row is absent. */
  predicate ProvesAbsent(a: Answer) {
    a == Status(200) || a == Status(204) || NotFound(a)
  }
}
