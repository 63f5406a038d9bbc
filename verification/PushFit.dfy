/** Fitting the session doc to aicrewd's bounds (internal/agent/handoff.go:370-399):
    oldest archive entries first, then the longest cut, found by bisection. */
module PushFit {
  import opened TextLines
  import opened SessionText
  import opened SessionArchive

  const MAX_PUSH: nat := 32 * 1024
  const MAX_ENCODED: nat := 60 * 1024
  const NOTICE := "\n\n(Cut at aicrewd's bound; " + "the home holds the whole doc.)\n"

  /** What encoding/json writes for one character of a string: the escapes of
      section 7 of RFC 8259, and \u escapes of <, >, &, U+2028 and U+2029. */
  function CharCost(c: char): (n: nat)
    ensures Width(c) <= n <= 6
  {
    if c == '"' || c == '\\' || c == '\n' || c == '\r' || c == '\t' || c as int == 8 || c as int == 12 then 2
    else if (c as int) < 0x20 || c == '<' || c == '>' || c == '&' || c as int == 0x2028 || c as int == 0x2029 then 6
    else Width(c)
  }

  function Cost(s: string): (n: nat)
    ensures Bytes(s) <= n <= 6 * |s|
  {
    if s == "" then 0 else CharCost(s[0]) + Cost(s[1..])
  }

  /** fits: the bound on the text, and on its JSON string with its two quotes. */
  predicate Fits(s: string) {
    Bytes(s) <= MAX_PUSH && Cost(s) + 2 <= MAX_ENCODED
  }

  function Hex(n: nat): (c: char)
    requires n < 16
    ensures c < '\U{80}'
  {
    "0123456789abcdef"[n]
  }

  function Escaped(code: nat): string
    requires code < 0x10000
  {
    ['\\', 'u', Hex(code / 0x1000), Hex(code / 0x100 % 16), Hex(code / 16 % 16), Hex(code % 16)]
  }

  /** A character as encoding/json writes it in a string (section 7 of RFC 8259), with
      what would be markup, and the line separators, escaped too. */
  function Encoded(c: char): string {
    if c == '"' then "\\\"" else if c == '\\' then "\\\\"
    else if c == '\n' then "\\n" else if c == '\r' then "\\r" else if c == '\t' then "\\t"
    else if c == '\U{8}' then "\\b" else if c == '\U{c}' then "\\f"
    else if c < ' ' || c in "<>&" || c == '\U{2028}' || c == '\U{2029}' then Escaped(c as int)
    else [c]
  }

  function Encode(s: string): string {
    if s == "" then "" else Encoded(s[0]) + Encode(s[1..])
  }

  /** The cost counted is that of the text as it is written. */
  lemma {:induction false} CostIsEncoding(s: string)
    ensures Cost(s) == Bytes(Encode(s))
  {
    if s != "" {
      CostIsEncoding(s[1..]);
      OneEncoded(s[0]);
      BytesBoth(Encoded(s[0]), Encode(s[1..]));
    }
  }

  lemma {:induction false} Ascii(s: string)
    requires forall i :: 0 <= i < |s| ==> s[i] < '\U{80}'
    ensures Bytes(s) == |s|
  {
    if s != "" {
      Ascii(s[1..]);
    }
  }

  lemma OneEncoded(c: char)
    ensures Bytes(Encoded(c)) == CharCost(c)
  {
    if |Encoded(c)| == 1 {
      assert Encoded(c)[1..] == "";
    } else {
      Ascii(Encoded(c));
    }
  }

  /** A text fits within 32 KiB of its own, and 60 KiB as a JSON string. */
  lemma FitsIs(s: string)
    ensures Fits(s) <==> Bytes(s) <= 32 * 1024 && Bytes("\"" + Encode(s) + "\"") <= 60 * 1024
  {
    CostIsEncoding(s);
    BytesBoth("\"", Encode(s));
    BytesBoth("\"" + Encode(s), "\"");
    Ascii("\"");
  }

  lemma {:induction false} CostBoth(a: string, b: string)
    ensures Cost(a + b) == Cost(a) + Cost(b)
  {
    if a == "" {
      assert a + b == b;
    } else {
      assert (a + b)[1..] == a[1..] + b;
      CostBoth(a[1..], b);
    }
  }

  /** b takes no less room than a, by either measure. */
  predicate NoLess(a: string, b: string) {
    Bytes(a) <= Bytes(b) && Cost(a) <= Cost(b)
  }

  lemma PrefixIsNoMore(a: string, b: string)
    requires a <= b
    ensures NoLess(a, b)
  {
    assert b == a + b[|a|..];
    BytesBoth(a, b[|a|..]);
    CostBoth(a, b[|a|..]);
  }

  lemma {:induction false} TakeGrows(s: string, m: nat, n: nat)
    requires m <= n
    ensures TakeBytes(s, m) <= TakeBytes(s, n)
  {
    if s != "" && Width(s[0]) <= m {
      TakeGrows(s[1..], m - Width(s[0]), n - Width(s[0]));
    }
  }

  lemma {:induction false} TrimEndGrows(p: string, q: string)
    requires p <= q
    ensures TrimEnd(p) <= TrimEnd(q)
    decreases |q|
  {
    if p == q {
    } else if TrimEnd(q) == q {
      assert TrimEnd(p) <= p;
      assert TrimEnd(p) == q[..|TrimEnd(p)|];
    } else {
      assert p <= q[..|q| - 1];
      TrimEndGrows(p, q[..|q| - 1]);
    }
  }

  /** A longer bound cuts to no less. */
  lemma CutGrows(s: string, m: nat, n: nat)
    requires m <= n
    ensures NoLess(CutText(s, m), CutText(s, n))
  {
    hide Bytes, Cost, TakeBytes, TrimEnd;
    if Bytes(s) <= m || m < 3 {
      PrefixIsNoMore("", CutText(s, n));
    } else {
      var p := TrimEnd(TakeBytes(s, m - 3));
      DotsCost(p);
      if Bytes(s) <= n {
        DotsFit(s, m);
      } else {
        var q := TrimEnd(TakeBytes(s, n - 3));
        TakeGrows(s, m - 3, n - 3);
        TrimEndGrows(TakeBytes(s, m - 3), TakeBytes(s, n - 3));
        PrefixIsNoMore(p, q);
        DotsCost(q);
      }
    }
  }

  lemma DotsCost(p: string)
    ensures Bytes(p + [ELLIPSIS]) == Bytes(p) + 3 && Cost(p + [ELLIPSIS]) == Cost(p) + 3
  {
    BytesBoth(p, [ELLIPSIS]);
    CostBoth(p, [ELLIPSIS]);
    assert [ELLIPSIS][1..] == "";
  }

  /** What a cut drops takes at least the room of the dots. */
  lemma DotsFit(s: string, m: nat)
    requires 3 <= m < Bytes(s)
    ensures NoLess(CutText(s, m), s)
  {
    hide Bytes, Cost;
    var taken := TakeBytes(s, m - 3);
    var rest := s[|taken|..];
    assert s == taken + rest;
    BytesBoth(taken, rest);
    CostBoth(taken, rest);
    PrefixIsNoMore(TrimEnd(taken), taken);
    DotsCost(TrimEnd(taken));
  }

  predicate FitsCut(s: string, n: nat) {
    Fits(CutText(s, n) + NOTICE)
  }

  /** The predicate the bisection searches is monotone. */
  lemma FitsCutMonotone(s: string, m: nat, n: nat)
    requires m <= n && FitsCut(s, n)
    ensures FitsCut(s, m)
  {
    hide Bytes, Cost, CutText, NOTICE;
    CutGrows(s, m, n);
    BytesBoth(CutText(s, m), NOTICE);
    BytesBoth(CutText(s, n), NOTICE);
    CostBoth(CutText(s, m), NOTICE);
    CostBoth(CutText(s, n), NOTICE);
  }

  lemma NothingFits(s: string)
    ensures FitsCut(s, 0)
  {
  }

  /** A doc with its newest k entries, as it is written. */
  function WithNewest(d: Doc, k: nat): string
    requires k <= |d.archive|
  {
    Render(d.(archive := d.archive[..k]))
  }

  predicate SomeFit(d: Doc) {
    exists k :: 0 <= k <= |d.archive| && Fits(WithNewest(d, k))
  }

  /** What fitting means: unchanged when it fits; else the most of the newest
      entries that fit; else, without entries, the longest cut that fits with
      its notice. */
  predicate Fitted(doc: string, r: string) {
    if Fits(doc) then r == doc else FittedDoc(Parse(doc), r)
  }

  predicate FittedDoc(d: Doc, r: string) {
    if SomeFit(d) then exists k :: 0 <= k <= |d.archive| && LastFit(d, k) && r == WithNewest(d, k)
    else
      exists n :: 0 <= n <= Bytes(WithNewest(d, 0)) && LongestCut(WithNewest(d, 0), n) && r == CutText(WithNewest(d, 0), n) + NOTICE
  }

  predicate LastFit(d: Doc, k: nat)
    requires k <= |d.archive|
  {
    Fits(WithNewest(d, k)) && forall j :: k < j <= |d.archive| ==> !Fits(WithNewest(d, j))
  }

  predicate LongestCut(s: string, n: nat) {
    FitsCut(s, n) && forall m :: n < m <= Bytes(s) ==> !FitsCut(s, m)
  }

  /** fitHandoffPush. */
  method FitPush(doc: string) returns (r: string)
    ensures Fits(r)
    ensures Fitted(doc, r)
  {
    hide Bytes, Fits, CutText, Parse, Render, FitsCut;
    if Fits(doc) {
      return doc;
    }
    var d := ParseHandoff(doc);
    var archive := d.archive;
    assert archive == d.archive[..|archive|];
    while |archive| > 0 && !Fits(Render(d.(archive := archive)))
      invariant archive <= d.archive
      invariant forall j :: |archive| < j <= |d.archive| ==> !Fits(WithNewest(d, j))
      decreases |archive|
    {
      assert archive == d.archive[..|archive|];
      archive := archive[..|archive| - 1];
    }
    assert archive == d.archive[..|archive|];
    var s := Render(d.(archive := archive));
    assert s == WithNewest(d, |archive|);
    if Fits(s) {
      assert LastFit(d, |archive|);
      return s;
    }
    assert !SomeFit(d);
    var n := LongestFit(s);
    assert FitsCut(s, n);
    r := CutText(s, n) + NOTICE;
    CutFits(s, n);
  }

  lemma CutFits(s: string, n: nat)
    requires FitsCut(s, n)
    ensures Fits(CutText(s, n) + NOTICE)
  {
  }

  /** The bisection. */
  method LongestFit(s: string) returns (n: nat)
    ensures n <= Bytes(s) && LongestCut(s, n)
  {
    hide FitsCut, Bytes;
    var lo, hi := 0, Bytes(s);
    NothingFits(s);
    while lo < hi
      invariant 0 <= lo <= hi <= Bytes(s)
      invariant FitsCut(s, lo)
      invariant forall m :: hi < m <= Bytes(s) ==> !FitsCut(s, m)
    {
      var mid := (lo + hi + 1) / 2;
      if FitsCut(s, mid) {
        lo := mid;
      } else {
        forall m | mid <= m <= Bytes(s) ensures !FitsCut(s, m) {
          if FitsCut(s, m) {
            FitsCutMonotone(s, mid, m);
            assert false;
          }
        }
        hi := mid - 1;
      }
    }
    return lo;
  }

  /** The bisected cut keeps at least as much as any other cut that fits. */
  lemma LongestKeepsMost(s: string, n: nat, m: nat)
    requires LongestCut(s, n) && FitsCut(s, m)
    ensures NoLess(CutText(s, m), CutText(s, n))
  {
    hide FitsCut, Bytes, CutText, Cost;
    if m <= n {
      CutGrows(s, m, n);
    } else if n < Bytes(s) {
      FitsCutMonotone(s, if m < Bytes(s) then m else Bytes(s), m);
      assert false;
    } else {
      WholeCuts(s, m);
      WholeCuts(s, n);
    }
  }

  lemma WholeCuts(s: string, m: nat)
    requires m >= Bytes(s)
    ensures CutText(s, m) == s == CutText(s, Bytes(s))
  {
  }
}
