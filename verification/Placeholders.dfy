// SQLite-style `?` placeholders rewritten to Postgres `$1…$n`: only the marks outside string
// literals, quoted identifiers, dollar quotes and comments.

module Placeholders {
  import opened Common

  // ---------------------------------------------------------------- SQL, token by token

  datatype Kind = Quoted | Dollar(tag: string) | LineComment | BlockComment | Plain

  datatype Token = Kept(kind: Kind, text: string) | Mark

  function Text(t: Token): string {
    if t.Mark? then "?" else t.text
  }

  function Join(ts: seq<Token>): string {
    if ts == [] then "" else Text(ts[0]) + Join(ts[1..])
  }

  predicate OccursAt(s: string, i: int, pattern: string) {
    0 <= i <= |s| && pattern <= s[i..]
  }

  predicate FirstAt(s: string, i: int, pattern: string) {
    OccursAt(s, i, pattern) && forall j :: 0 <= j < i ==> !OccursAt(s, j, pattern)
  }

  predicate Nowhere(s: string, pattern: string) {
    forall j :: 0 <= j <= |s| ==> !OccursAt(s, j, pattern)
  }

  /** Ends right after the first `pattern`, or never if the statement ends first. */
  predicate RunsTo(s: string, rest: string, pattern: string) {
    (rest == "" && Nowhere(s, pattern)) || FirstAt(s, |s| - |pattern|, pattern)
  }

  /** Inside quotes the quote itself only appears doubled. */
  predicate DoubledOnly(s: string, q: char) {
    if s == "" then true
    else if s[0] == q then |s| >= 2 && s[1] == q && DoubledOnly(s[2..], q)
    else DoubledOnly(s[1..], q)
  }

  predicate IsQuote(c: char) {
    c == '\'' || c == '"'
  }

  predicate IdentStart(c: char) {
    'a' <= c <= 'z' || 'A' <= c <= 'Z' || c == '_'
  }

  predicate IdentPart(c: char) {
    IdentStart(c) || '0' <= c <= '9'
  }

  /** `$$` or `$name$`. */
  predicate IsTag(t: string) {
    && |t| >= 2 && t[0] == '$' && t[|t| - 1] == '$'
    && (|t| > 2 ==> IdentStart(t[1]))
    && forall i :: 1 <= i < |t| - 1 ==> IdentPart(t[i])
  }

  predicate StartsWithTag(s: string) {
    exists n :: 0 <= n <= |s| && IsTag(s[..n])
  }

  predicate IsQuoted(text: string, rest: string) {
    && text != "" && IsQuote(text[0])
    && ((rest == "" && DoubledOnly(text[1..], text[0]))
        || (|text| >= 2 && text[|text| - 1] == text[0] && DoubledOnly(text[1..|text| - 1], text[0])
            && (rest == "" || rest[0] != text[0])))
  }

  predicate IsDollar(tag: string, text: string, rest: string) {
    IsTag(tag) && tag <= text && RunsTo(text[|tag|..], rest, tag)
  }

  predicate IsBlock(text: string, rest: string) {
    "/*" <= text && RunsTo(text[2..], rest, "*/")
  }

  predicate IsLine(text: string, rest: string) {
    "--" <= text && '\n' !in text && (rest == "" || rest[0] == '\n')
  }

  predicate IsPlain(text: string, rest: string) {
    && |text| == 1 && !IsQuote(text[0]) && text[0] != '?'
    && !StartsWithTag(text + rest) && !("--" <= text + rest) && !("/*" <= text + rest)
  }

  /** This token, when this text follows it. */
  predicate IsToken(t: Token, rest: string) {
    match t
    case Mark => true
    case Kept(Quoted, text) => IsQuoted(text, rest)
    case Kept(Dollar(tag), text) => IsDollar(tag, text, rest)
    case Kept(LineComment, text) => IsLine(text, rest)
    case Kept(BlockComment, text) => IsBlock(text, rest)
    case Kept(Plain, text) => IsPlain(text, rest)
  }

  /** The statement really reads as these tokens. */
  predicate Tokens(ts: seq<Token>) {
    ts != [] ==> IsToken(ts[0], Join(ts[1..])) && Tokens(ts[1..])
  }

  function Marks(ts: seq<Token>): nat {
    if ts == [] then 0 else Marks(ts[..|ts| - 1]) + (if ts[|ts| - 1].Mark? then 1 else 0)
  }

  function Decimal(n: nat): string {
    if n < 10 then [('0' as int + n) as char] else Decimal(n / 10) + [('0' as int + n % 10) as char]
  }

  /** The k-th mark becomes `$k`, everything else stays. */
  function Numbered(ts: seq<Token>): string {
    if ts == [] then ""
    else
      var last := ts[|ts| - 1];
      Numbered(ts[..|ts| - 1]) + (if last.Mark? then "$" + Decimal(Marks(ts)) else last.text)
  }

  // ---------------------------------------------------------------- scanning

  /** How much of the text after an opening quote belongs to the literal. */
  function QuotedLength(s: string, q: char): (n: nat)
    ensures n <= |s|
  {
    if s == "" then 0
    else if s[0] != q then 1 + QuotedLength(s[1..], q)
    else if |s| >= 2 && s[1] == q then 2 + QuotedLength(s[2..], q)
    else 1
  }

  function Find(s: string, pattern: string): (i: Option<nat>)
    ensures i.Some? ==> FirstAt(s, i.value, pattern)
    ensures i.None? ==> Nowhere(s, pattern)
  {
    if pattern <= s then
      assert OccursAt(s, 0, pattern);
      Some(0)
    else if s == "" then None
    else
      assert forall j :: 0 < j <= |s| ==> s[j..] == s[1..][j - 1..];
      assert forall j :: 0 < j <= |s| ==> OccursAt(s, j, pattern) == OccursAt(s[1..], j - 1, pattern);
      var i := Find(s[1..], pattern);
      if i.Some? then Some(1 + i.value) else None
  }

  function IdentLength(s: string): (n: nat)
    ensures n <= |s| && (forall i :: 0 <= i < n ==> IdentPart(s[i])) && (n < |s| ==> !IdentPart(s[n]))
  {
    if s == "" || !IdentPart(s[0]) then 0 else 1 + IdentLength(s[1..])
  }

  /** The length of the dollar tag at the start of the text. */
  function TagLength(s: string): (n: Option<nat>)
    ensures n.Some? ==> n.value <= |s| && IsTag(s[..n.value])
    ensures n.None? ==> !StartsWithTag(s)
    ensures forall k :: 0 <= k <= |s| && IsTag(s[..k]) ==> n == Some(k)
  {
    if |s| < 2 || s[0] != '$' then None
    else
      var k := IdentLength(s[1..]);
      OneTag(s, k);
      if (k == 0 || IdentStart(s[1])) && 1 + k < |s| && s[1 + k] == '$' then Some(k + 2) else None
  }

  lemma OneTag(s: string, k: nat)
    requires |s| >= 2 && k == IdentLength(s[1..])
    ensures forall n :: 0 <= n <= |s| && IsTag(s[..n]) ==> n == k + 2
  {
    forall n | 0 <= n <= |s| && IsTag(s[..n])
      ensures n == k + 2
    {
      var t := s[..n];
      assert forall i :: 0 <= i < n ==> t[i] == s[i];
      assert s[n - 1] == '$' && !IdentPart(s[n - 1]);
      assert forall i :: 0 <= i < |s| - 1 ==> s[1..][i] == s[i + 1];
    }
  }

  /** One past the first `pattern`, or the end. */
  function Through(s: string, pattern: string): (n: nat)
    ensures n <= |s|
  {
    var i := Find(s, pattern);
    if i.Some? then i.value + |pattern| else |s|
  }

  /** The literal after the tag of this length. */
  function DollarQuoted(s: string, n: nat): Token
    requires n <= |s|
  {
    Kept(Dollar(s[..n]), s[..n + Through(s[n..], s[..n])])
  }

  /** The token a text starts with. */
  function First(s: string): (t: Token)
    requires s != ""
  {
    if IsQuote(s[0]) then Kept(Quoted, s[..1 + QuotedLength(s[1..], s[0])])
    else
      var tag := TagLength(s);
      if tag.Some? then DollarQuoted(s, tag.value)
      else if "--" <= s then
        var newline := Find(s, "\n");
        Kept(LineComment, if newline.Some? then s[..newline.value] else s)
      else if "/*" <= s then Kept(BlockComment, s[..2 + Through(s[2..], "*/")])
      else if s[0] == '?' then Mark
      else Kept(Plain, s[..1])
  }

  function Scan(s: string): seq<Token>
    decreases |s|
  {
    if s == "" then []
    else
      FirstIsToken(s);
      [First(s)] + Scan(s[|Text(First(s))|..])
  }

  // ---------------------------------------------------------------- scanning is reading

  lemma {:induction false} QuotedLengthStops(s: string, q: char)
    ensures var n := QuotedLength(s, q);
      || (n == |s| && DoubledOnly(s, q))
      || (n >= 1 && s[n - 1] == q && DoubledOnly(s[..n - 1], q) && (n == |s| || s[n] != q))
  {
    if s != "" {
      var n := QuotedLength(s, q);
      if s[0] != q {
        QuotedLengthStops(s[1..], q);
        assert n >= 2 ==> s[..n - 1][1..] == s[1..][..n - 2];
      } else if |s| >= 2 && s[1] == q {
        QuotedLengthStops(s[2..], q);
        assert n >= 3 ==> s[..n - 1][2..] == s[2..][..n - 3];
      }
    }
  }

  lemma {:induction false} QuotedLengthOf(body: string, rest: string, q: char)
    requires DoubledOnly(body, q) && (rest == "" || rest[0] != q)
    ensures QuotedLength(body, q) == |body|
    ensures QuotedLength(body + [q] + rest, q) == |body| + 1
  {
    var s := body + [q] + rest;
    if body != "" {
      var d := if body[0] == q then 2 else 1;
      QuotedLengthOf(body[d..], rest, q);
      assert s[d..] == body[d..] + [q] + rest;
    }
  }

  lemma ThroughRuns(s: string, pattern: string)
    ensures RunsTo(s[..Through(s, pattern)], s[Through(s, pattern)..], pattern)
  {
    var n, i := Through(s, pattern), Find(s, pattern);
    assert s[..|s|] == s;
    if i.Some? {
      assert s[i.value..n] == pattern;
      assert s[..n][i.value..] == pattern;
      forall j | 0 <= j < i.value
        ensures !OccursAt(s[..n], j, pattern)
      {
        assert !OccursAt(s, j, pattern);
        assert s[..n][j..] <= s[j..];
      }
    }
  }

  lemma OccursInLonger(s: string, rest: string, j: nat, pattern: string)
    requires j + |pattern| <= |s|
    ensures OccursAt(s + rest, j, pattern) <==> OccursAt(s, j, pattern)
  {
    assert (s + rest)[j..] == s[j..] + rest;
  }

  lemma RunsThrough(s: string, rest: string, pattern: string)
    requires RunsTo(s, rest, pattern)
    ensures Through(s + rest, pattern) == |s|
  {
    if FirstAt(s, |s| - |pattern|, pattern) {
      forall j | 0 <= j <= |s| - |pattern|
        ensures OccursAt(s + rest, j, pattern) <==> OccursAt(s, j, pattern)
      {
        OccursInLonger(s, rest, j, pattern);
      }
    } else {
      assert s + rest == s;
    }
  }

  /** A token, and the text it starts, fit together. */
  ghost predicate StartsWith(s: string, t: Token) {
    1 <= |Text(t)| <= |s| && Text(t) == s[..|Text(t)|] && IsToken(t, s[|Text(t)|..])
  }

  lemma Inside(s: string, n: nat)
    requires 1 <= n <= |s|
    ensures s[..n][1..] == s[1..][..n - 1]
    ensures n >= 2 ==> s[..n][1..n - 1] == s[1..][..n - 2]
  {
    var text, after := s[..n], s[1..];
    assert forall i :: 0 <= i < n - 1 ==> text[1..][i] == text[i + 1] == s[i + 1] == after[i];
  }

  lemma FirstQuoted(s: string)
    requires s != "" && IsQuote(s[0])
    ensures StartsWith(s, First(s))
  {
    var n := 1 + QuotedLength(s[1..], s[0]);
    QuotedLengthStops(s[1..], s[0]);
    Inside(s, n);
    if n - 1 == |s[1..]| {
      assert s[1..][..n - 1] == s[1..];
    }
  }

  lemma DollarFits(s: string, n: nat)
    requires n <= |s| && IsTag(s[..n])
    ensures var end := n + Through(s[n..], s[..n]); IsDollar(s[..n], s[..end], s[end..])
  {
    ThroughRuns(s[n..], s[..n]);
    CutTwice(s, n, Through(s[n..], s[..n]));
  }

  lemma CutTwice(s: string, n: nat, k: nat)
    requires n + k <= |s|
    ensures s[..n] <= s[..n + k] && s[..n + k][n..] == s[n..][..k] && s[n + k..] == s[n..][k..]
  {
  }

  lemma FirstDollar(s: string, n: nat)
    requires n <= |s| && IsTag(s[..n])
    ensures StartsWith(s, DollarQuoted(s, n))
  {
    DollarFits(s, n);
    assert n >= 2;
  }

  lemma FirstBlock(s: string)
    requires "/*" <= s
    ensures StartsWith(s, Kept(BlockComment, s[..2 + Through(s[2..], "*/")]))
  {
    var n := 2 + Through(s[2..], "*/");
    ThroughRuns(s[2..], "*/");
    assert s[..n][2..] == s[2..][..n - 2];
    assert s[n..] == s[2..][n - 2..];
  }

  lemma FirstIsToken(s: string)
    requires s != ""
    ensures StartsWith(s, First(s))
  {
    if IsQuote(s[0]) {
      FirstQuoted(s);
    } else if TagLength(s).Some? {
      FirstDollar(s, TagLength(s).value);
    } else if "--" <= s {
      LineEnds(s);
    } else if "/*" <= s {
      FirstBlock(s);
    } else {
      assert s[..1] + s[1..] == s;
    }
  }

  lemma LineEnds(s: string)
    requires "--" <= s
    ensures var newline := Find(s, "\n");
      var line := if newline.Some? then s[..newline.value] else s;
      "--" <= line && '\n' !in line && (|line| == |s| || s[|line|] == '\n')
  {
    var newline := Find(s, "\n");
    forall i | 0 <= i < |s| && s[i] == '\n'
      ensures newline.Some? && newline.value <= i
    {
      assert s[i..][..1] == "\n";
      assert OccursAt(s, i, "\n");
    }
    assert s[0] == '-' && s[1] == '-';
    if newline.Some? {
      assert s[newline.value..][0] == '\n';
    }
  }

  lemma QuotedIsFirst(text: string, rest: string)
    requires IsQuoted(text, rest)
    ensures First(text + rest) == Kept(Quoted, text)
  {
    var s, q := text + rest, text[0];
    assert s[0] == q && s[..|text|] == text && s[1..] == text[1..] + rest;
    if rest == "" && DoubledOnly(text[1..], q) {
      QuotedLengthOf(text[1..], "", q);
      assert s == text;
    } else {
      var body := text[1..|text| - 1];
      QuotedLengthOf(body, rest, q);
      assert text == [q] + (body + [q]);
      assert s == [q] + (body + [q] + rest);
    }
  }

  lemma DollarGoesThrough(tag: string, text: string, rest: string)
    requires IsDollar(tag, text, rest)
    ensures var s := text + rest; |tag| <= |s| && s[..|tag|] == tag && |tag| + Through(s[|tag|..], tag) == |text|
  {
    PastTheTag(tag, text, rest);
    RunsThrough(text[|tag|..], rest, tag);
  }

  lemma PastTheTag(tag: string, text: string, rest: string)
    requires tag <= text
    ensures var s := text + rest; |tag| <= |s| && s[..|tag|] == tag && s[|tag|..] == text[|tag|..] + rest
  {
  }

  lemma DollarIsFirst(tag: string, text: string, rest: string)
    requires IsDollar(tag, text, rest)
    ensures First(text + rest) == Kept(Dollar(tag), text)
  {
    var s := text + rest;
    DollarGoesThrough(tag, text, rest);
    assert s[0] == tag[0] == '$';
    assert TagLength(s) == Some(|tag|);
    assert s[..|text|] == text;
  }

  lemma CommentIsFirst(kind: Kind, text: string, rest: string)
    requires (kind.LineComment? && IsLine(text, rest)) || (kind.BlockComment? && IsBlock(text, rest))
    ensures First(text + rest) == Kept(kind, text)
  {
    var s := text + rest;
    assert s[0] == text[0] && s[1] == text[1] && s[..|text|] == text;
    assert TagLength(s).None?;
    if kind.LineComment? {
      assert text[0] == '-';
      NewlineAfter(text, rest);
    } else {
      assert text[0] == '/';
      RunsThrough(text[2..], rest, "*/");
      assert s[2..] == text[2..] + rest;
    }
  }

  lemma TokenIsFirst(t: Token, rest: string)
    requires IsToken(t, rest)
    ensures Text(t) != "" && First(Text(t) + rest) == t
  {
    var s := Text(t) + rest;
    match t
    case Mark =>
    case Kept(Quoted, text) => QuotedIsFirst(text, rest);
    case Kept(Dollar(tag), text) => DollarIsFirst(tag, text, rest);
    case Kept(LineComment, text) => CommentIsFirst(LineComment, text, rest);
    case Kept(BlockComment, text) => CommentIsFirst(BlockComment, text, rest);
    case Kept(Plain, text) =>
      assert TagLength(s).None?;
      assert s[..1] == text;
  }

  lemma NewlineAfter(text: string, rest: string)
    requires '\n' !in text && (rest == "" || rest[0] == '\n')
    ensures Find(text + rest, "\n") == if rest == "" then None else Some(|text|)
  {
    var s := text + rest;
    var i := Find(s, "\n");
    if i.Some? {
      assert s[i.value..][0] == '\n';
    }
    if rest != "" {
      assert s[|text|..][..1] == "\n";
      assert OccursAt(s, |text|, "\n");
    }
  }

  lemma Split(t: Token, ts: seq<Token>)
    ensures Join([t] + ts) == Text(t) + Join(ts)
    ensures Tokens([t] + ts) <==> IsToken(t, Join(ts)) && Tokens(ts)
  {
    assert ([t] + ts)[1..] == ts;
  }

  /** A statement reads as exactly one token list, the one the scan finds. */
  lemma {:induction false} OneReading(ts: seq<Token>)
    ensures Tokens(ts) <==> ts == Scan(Join(ts))
  {
    if ts != [] {
      var rest := Join(ts[1..]);
      OneReading(ts[1..]);
      var s, n := Join(ts), |Text(ts[0])|;
      assert s[n..] == rest;
      if IsToken(ts[0], rest) {
        TokenIsFirst(ts[0], rest);
      } else if ts == Scan(s) {
        FirstIsToken(s);
        assert false;
      }
    }
  }

  lemma FirstFits(s: string)
    requires s != ""
    ensures 1 <= |Text(First(s))| <= |s| && Text(First(s)) == s[..|Text(First(s))|]
    ensures Scan(s) == [First(s)] + Scan(s[|Text(First(s))|..])
  {
    FirstIsToken(s);
  }

  lemma {:induction false} ScanJoins(s: string)
    ensures Join(Scan(s)) == s && Tokens(Scan(s))
    decreases |s|
  {
    if s != "" {
      var t := First(s);
      FirstIsToken(s);
      FirstFits(s);
      var rest := s[|Text(t)|..];
      ScanJoins(rest);
      Whole(s, t, Scan(rest));
    }
  }

  lemma Whole(s: string, t: Token, ts: seq<Token>)
    requires StartsWith(s, t) && Join(ts) == s[|Text(t)|..] && Tokens(ts)
    ensures Join([t] + ts) == s && Tokens([t] + ts)
  {
    Split(t, ts);
  }

  // ---------------------------------------------------------------- the rewrite

  /** One past the closing quote of the literal opened at `open`. */
  method ClosingQuote(sql: string, open: nat, quote: char) returns (end: nat)
    requires open < |sql|
    ensures end == open + 1 + QuotedLength(sql[open + 1..], quote)
  {
    var index := open + 1;
    while index < |sql|
      invariant open < index <= |sql|
      invariant index + QuotedLength(sql[index..], quote) == open + 1 + QuotedLength(sql[open + 1..], quote)
    {
      var here := sql[index..];
      if here[0] == quote {
        if index + 1 < |sql| && here[1] == quote {
          assert here[2..] == sql[index + 2..];
          index := index + 2;
          continue;
        }
        return index + 1;
      }
      assert here[1..] == sql[index + 1..];
      index := index + 1;
    }
    end := |sql|;
  }

  /** `out` is what was to be written for these tokens. */
  ghost predicate Wrote(read: seq<Token>, out: string, count: nat) {
    out == Numbered(read) && count == Marks(read)
  }

  lemma WritesOneMore(read: seq<Token>, t: Token, out: string, count: nat)
    requires Wrote(read, out, count)
    ensures t.Mark? ==> Wrote(read + [t], out + ("$" + Decimal(count + 1)), count + 1)
    ensures !t.Mark? ==> Wrote(read + [t], out + t.text, count)
  {
    var ts := read + [t];
    assert ts[..|ts| - 1] == read;
  }

  /** `read` is the statement's tokens up to `index`. */
  ghost predicate HasRead(sql: string, index: nat, read: seq<Token>) {
    index <= |sql| && Scan(sql) == read + Scan(sql[index..])
  }

  /** The next token, in the places of the statement itself. */
  lemma NextToken(sql: string, index: nat, read: seq<Token>, t: Token, end: nat)
    requires index < end <= |sql| && HasRead(sql, index, read)
    requires Scan(sql[index..]) == [t] + Scan(sql[index..][end - index..])
    ensures HasRead(sql, end, read + [t])
  {
    assert sql[index..][end - index..] == sql[end..];
    Regroup(read, t, Scan(sql[end..]));
  }

  lemma Regroup(read: seq<Token>, t: Token, rest: seq<Token>)
    ensures read + ([t] + rest) == (read + [t]) + rest
  {
  }

  lemma MarkIsFirst(s: string)
    requires s != ""
    ensures First(s).Mark? <==> s[0] == '?'
    ensures First(s).Mark? ==> |Text(First(s))| == 1
  {
    if s[0] == '?' {
      assert TagLength(s).None?;
    }
  }

  /** The marks of the statement, in the order it reads, are numbered; the rest is copied. */
  method RewritePlaceholders(sql: string) returns (out: string, count: nat)
    ensures out == Numbered(Scan(sql)) && count == Marks(Scan(sql))
  {
    out, count := "", 0;
    var index := 0;
    ghost var read: seq<Token> := [];
    assert sql[0..] == sql;
    while index < |sql|
      invariant index <= |sql|
      invariant HasRead(sql, index, read) && Wrote(read, out, count)
    {
      ghost var token;
      index, out, count, token := RewriteOne(sql, index, out, count, read);
      read := read + [token];
    }
    assert read == Scan(sql);
  }

  lemma MarkRead(sql: string, index: nat, out: string, count: nat, read: seq<Token>)
    requires index < |sql| && sql[index] == '?' && HasRead(sql, index, read) && Wrote(read, out, count)
    ensures HasRead(sql, index + 1, read + [Mark])
    ensures Wrote(read + [Mark], out + ("$" + Decimal(count + 1)), count + 1)
  {
    MarkIsFirst(sql[index..]);
    FirstFits(sql[index..]);
    NextToken(sql, index, read, Mark, index + 1);
    WritesOneMore(read, Mark, out, count);
  }

  lemma TextRead(sql: string, index: nat, end: nat, out: string, count: nat, read: seq<Token>) returns (t: Token)
    requires index < |sql| && sql[index] != '?' && HasRead(sql, index, read) && Wrote(read, out, count)
    requires end == index + |Text(First(sql[index..]))|
    ensures index < end <= |sql|
    ensures HasRead(sql, end, read + [t]) && Wrote(read + [t], out + sql[index..end], count)
  {
    t := First(sql[index..]);
    MarkIsFirst(sql[index..]);
    FirstFits(sql[index..]);
    assert sql[index..][..end - index] == sql[index..end];
    NextToken(sql, index, read, t, end);
    WritesOneMore(read, t, out, count);
  }

  /** One token: numbered if it is a mark, copied otherwise. */
  method RewriteOne(sql: string, index: nat, out: string, count: nat, ghost read: seq<Token>)
    returns (end: nat, next: string, marks: nat, ghost token: Token)
    requires index < |sql| && HasRead(sql, index, read) && Wrote(read, out, count)
    ensures index < end && HasRead(sql, end, read + [token]) && Wrote(read + [token], next, marks)
  {
    if sql[index] == '?' {
      token := Mark;
      MarkRead(sql, index, out, count, read);
      end, marks := index + 1, count + 1;
      next := out + ("$" + Decimal(marks));
    } else {
      end := TokenEnd(sql, index);
      token := TextRead(sql, index, end, out, count, read);
      marks := count;
      next := out + sql[index..end];
    }
  }

  /** One past the literal, quote, comment or character at `index`. */
  method TokenEnd(sql: string, index: nat) returns (end: nat)
    requires index < |sql| && sql[index] != '?'
    ensures end == index + |Text(First(sql[index..]))|
  {
    var here := sql[index..];
    var next := sql[index];
    assert here[0] == next;
    if IsQuote(next) {
      end := ClosingQuote(sql, index, next);
      assert here[1..] == sql[index + 1..];
      return;
    }
    var tag := TagLength(here);
    if tag.Some? {
      var close := Find(here[tag.value..], here[..tag.value]);
      return if close.None? then |sql| else index + tag.value + close.value + tag.value;
    }
    if next == '-' && index + 1 < |sql| && sql[index + 1] == '-' {
      assert here[1] == '-';
      LineEnds(here);
      var newline := Find(here, "\n");
      return if newline.None? then |sql| else index + newline.value;
    }
    if next == '/' && index + 1 < |sql| && sql[index + 1] == '*' {
      assert here[1] == '*';
      var close := Find(here[2..], "*/");
      return if close.None? then |sql| else index + 2 + close.value + 2;
    }
    end := index + 1;
  }

  /** What the rewrite promises without mentioning how it scans: however the statement reads, its
      marks and nothing else are numbered in order. */
  lemma NumbersTheMarks(sql: string, ts: seq<Token>, out: string, count: nat)
    requires out == Numbered(Scan(sql)) && count == Marks(Scan(sql))
    ensures Tokens(ts) && Join(ts) == sql ==> out == Numbered(ts) && count == Marks(ts)
    ensures exists rs :: Tokens(rs) && Join(rs) == sql
  {
    OneReading(ts);
    ScanJoins(sql);
    assert Tokens(Scan(sql)) && Join(Scan(sql)) == sql;
  }

  /** A statement without marks comes back as it was. */
  lemma {:induction false} UnmarkedStays(ts: seq<Token>)
    requires Marks(ts) == 0
    ensures Numbered(ts) == Join(ts)
  {
    if ts != [] {
      var n := |ts| - 1;
      UnmarkedStays(ts[..n]);
      assert ts == ts[..n] + [ts[n]];
      JoinAppends(ts[..n], ts[n]);
    }
  }

  lemma {:induction false} JoinAppends(ts: seq<Token>, t: Token)
    ensures Join(ts + [t]) == Join(ts) + Text(t)
  {
    if ts != [] {
      JoinAppends(ts[1..], t);
      assert (ts + [t])[1..] == ts[1..] + [t];
    } else {
      assert (ts + [t])[1..] == [];
    }
  }
}
