/** Strings as the ledger compares and normalises them: code-point order, `strip`, and sorted sets of names. */
module Text {

  datatype Option<+T> = None | Some(value: T)

  /** Strict code-point order, the order of both SQL text comparison and Python's `sorted`. */
  predicate Less(a: string, b: string) {
    b != "" && (a == "" || a[0] < b[0] || (a[0] == b[0] && Less(a[1..], b[1..])))
  }

  lemma {:induction false} LessIrreflexive(a: string)
    ensures !Less(a, a)
  {
    if a != "" { LessIrreflexive(a[1..]); }
  }

  lemma {:induction false} LessTransitive(a: string, b: string, c: string)
    requires Less(a, b) && Less(b, c)
    ensures Less(a, c)
  {
    if a != "" && a[0] == b[0] == c[0] { LessTransitive(a[1..], b[1..], c[1..]); }
  }

  lemma {:induction false} LessTotal(a: string, b: string)
    ensures a == b || Less(a, b) || Less(b, a)
  {
    if a != "" && b != "" && a[0] == b[0] {
      LessTotal(a[1..], b[1..]);
      if a[1..] == b[1..] { assert a == [a[0]] + a[1..] && b == [b[0]] + b[1..]; }
    }
  }

  /** Comparing two texts whose heads have one length is comparing the heads first, then the tails. */
  lemma {:induction false} LessByHead(p: string, x: string, q: string, y: string)
    requires |p| == |q|
    ensures Less(p + x, q + y) <==> Less(p, q) || (p == q && Less(x, y))
  {
    if p == "" {
      assert p + x == x && q + y == y;
    } else {
      assert (p + x)[1..] == p[1..] + x && (q + y)[1..] == q[1..] + y;
      assert (p + x)[0] == p[0] && (q + y)[0] == q[0];
      LessByHead(p[1..], x, q[1..], y);
      assert p == q <==> p[0] == q[0] && p[1..] == q[1..] by {
        assert p == [p[0]] + p[1..] && q == [q[0]] + q[1..];
      }
    }
  }

  /** The decimal digit of value `d`. */
  function DigitChar(d: nat): char
    requires d < 10
  {
    "0123456789"[d]
  }

  /** The characters Python's `str.isspace` accepts. */
  predicate IsSpace(c: char) {
    '\t' <= c <= '\r' || '\U{1c}' <= c <= ' ' || c == '\U{85}' || c == '\U{a0}' || c == '\U{1680}'
    || '\U{2000}' <= c <= '\U{200a}' || c == '\U{2028}' || c == '\U{2029}' || c == '\U{202f}'
    || c == '\U{205f}' || c == '\U{3000}'
  }

  function StripLeft(s: string): string {
    if s != "" && IsSpace(s[0]) then StripLeft(s[1..]) else s
  }

  function StripRight(s: string): string {
    if s != "" && IsSpace(s[|s| - 1]) then StripRight(s[..|s| - 1]) else s
  }

  function Strip(s: string): string { StripRight(StripLeft(s)) }

  predicate IsBlank(s: string) { Strip(s) == "" }

  lemma {:induction false} StripLeftShape(s: string)
    ensures StripLeft(s) == "" || !IsSpace(StripLeft(s)[0])
  {
    if s != "" && IsSpace(s[0]) { StripLeftShape(s[1..]); }
  }

  lemma {:induction false} StripRightShape(s: string)
    ensures StripRight(s) <= s
    ensures StripRight(s) == "" || !IsSpace(StripRight(s)[|StripRight(s)| - 1])
  {
    if s != "" && IsSpace(s[|s| - 1]) { StripRightShape(s[..|s| - 1]); }
  }

  /** Stripping twice is stripping once, so a key the runtime stripped reaches the provider unchanged. */
  lemma StripIdempotent(s: string)
    ensures Strip(Strip(s)) == Strip(s)
  {
    StripLeftShape(s);
    StripRightShape(StripLeft(s));
  }

  predicate AllSpace(s: string) { forall i :: 0 <= i < |s| ==> IsSpace(s[i]) }

  predicate Tight(s: string) { s == "" || (!IsSpace(s[0]) && !IsSpace(s[|s| - 1])) }

  lemma {:induction false} StripLeftDrops(pad: string, s: string)
    requires AllSpace(pad) && (s == "" || !IsSpace(s[0]))
    ensures StripLeft(pad + s) == s
  {
    hide IsSpace;
    if pad == "" {
      assert pad + s == s;
    } else {
      assert (pad + s)[1..] == pad[1..] + s;
      StripLeftDrops(pad[1..], s);
    }
  }

  lemma {:induction false} StripRightDrops(s: string, pad: string)
    requires AllSpace(pad) && (s == "" || !IsSpace(s[|s| - 1]))
    ensures StripRight(s + pad) == s
  {
    hide IsSpace;
    if pad == "" {
      assert s + pad == s;
    } else {
      var n := |pad| - 1;
      assert (s + pad)[..|s + pad| - 1] == s + pad[..n];
      StripRightDrops(s, pad[..n]);
    }
  }

  /** Stripping drops the white space at both ends and nothing else. */
  lemma StripSays(before: string, s: string, after: string)
    requires AllSpace(before) && AllSpace(after) && Tight(s)
    ensures Strip(before + s + after) == s
  {
    hide IsSpace;
    if s == "" {
      StripLeftDrops(before + after, "");
      assert before + s + after == before + after + "";
    } else {
      StripLeftDrops(before, s + after);
      assert before + s + after == before + (s + after);
      StripRightDrops(s, after);
    }
  }

  predicate StrictlySorted(items: seq<string>) {
    forall i, j :: 0 <= i < j < |items| ==> Less(items[i], items[j])
  }

  function Elements(items: seq<string>): set<string> { set x | x in items }

  function Insert(x: string, items: seq<string>): seq<string> {
    if items == [] then [x]
    else if x == items[0] then items
    else if Less(x, items[0]) then [x] + items
    else [items[0]] + Insert(x, items[1..])
  }

  lemma PrependKeepsOrder(x: string, items: seq<string>)
    requires StrictlySorted(items)
    requires forall y :: y in Elements(items) ==> Less(x, y)
    ensures StrictlySorted([x] + items)
    ensures Elements([x] + items) == {x} + Elements(items)
  {
    var all := [x] + items;
    forall i, j | 0 <= i < j < |all| ensures Less(all[i], all[j]) {
      assert all[j] == items[j - 1] && all[j] in Elements(items);
    }
  }

  lemma {:induction false} InsertKeepsOrder(x: string, items: seq<string>)
    requires StrictlySorted(items)
    ensures StrictlySorted(Insert(x, items))
    ensures Elements(Insert(x, items)) == Elements(items) + {x}
  {
    if items == [] || x == items[0] {
    } else if Less(x, items[0]) {
      forall y | y in Elements(items) ensures Less(x, y) {
        if y != items[0] { LessTransitive(x, items[0], y); }
      }
      PrependKeepsOrder(x, items);
    } else {
      LessTotal(x, items[0]);
      InsertKeepsOrder(x, items[1..]);
      assert items == [items[0]] + items[1..];
      assert Elements(items) == {items[0]} + Elements(items[1..]);
      forall y | y in Elements(items[1..]) ensures Less(items[0], y) {}
      hide Less, Elements, StrictlySorted;
      PrependKeepsOrder(items[0], Insert(x, items[1..]));
    }
  }

  /** The tuple of stripped, non-empty, distinct names in code-point order. */
  function Normalize(items: seq<string>): seq<string> {
    if items == [] then []
    else
      var rest := Normalize(items[..|items| - 1]);
      var name := Strip(items[|items| - 1]);
      if name == "" then rest else Insert(name, rest)
  }

  /** The set of names a caller means, whatever their order, repetition or padding. */
  function Names(items: seq<string>): set<string> {
    set x | x in items && Strip(x) != "" :: Strip(x)
  }

  lemma {:induction false} NormalizeIsNames(items: seq<string>)
    ensures StrictlySorted(Normalize(items))
    ensures Elements(Normalize(items)) == Names(items)
  {
    if items != [] {
      var init, last := items[..|items| - 1], items[|items| - 1];
      assert items == init + [last];
      NormalizeIsNames(init);
      assert Names(items) == Names(init) + (if Strip(last) == "" then {} else {Strip(last)});
      if Strip(last) != "" { InsertKeepsOrder(Strip(last), Normalize(init)); }
    }
  }

  /** A strictly sorted sequence is determined by its set of elements. */
  lemma {:induction false} SortedUnique(a: seq<string>, b: seq<string>)
    requires StrictlySorted(a) && StrictlySorted(b)
    requires Elements(a) == Elements(b)
    ensures a == b
  {
    if a == [] {
      assert forall x :: x in b ==> x in Elements(b);
    } else {
      assert a[0] in Elements(b);
      var i :| 0 <= i < |b| && b[i] == a[0];
      assert b[0] in Elements(a);
      var j :| 0 <= j < |a| && a[j] == b[0];
      if a[0] != b[0] {
        LessTransitive(a[0], a[j], b[i]);
        LessIrreflexive(a[0]);
      }
      forall x ensures x in Elements(a[1..]) <==> x in Elements(b[1..]) {
        SortedTail(a, x);
        SortedTail(b, x);
      }
      SortedUnique(a[1..], b[1..]);
    }
  }

  lemma SortedTail(a: seq<string>, x: string)
    requires StrictlySorted(a) && a != []
    ensures x in Elements(a[1..]) <==> x in Elements(a) && x != a[0]
  {
    LessIrreflexive(a[0]);
    assert a == [a[0]] + a[1..];
  }

  /** Two callers' name lists normalise alike exactly when they mean the same set. */
  lemma NormalizeAgrees(a: seq<string>, b: seq<string>)
    ensures Normalize(a) == Normalize(b) <==> Names(a) == Names(b)
  {
    NormalizeIsNames(a);
    NormalizeIsNames(b);
    if Names(a) == Names(b) { SortedUnique(Normalize(a), Normalize(b)); }
  }
}
