/**
 * The few JavaScript value rules the pages rely on: optional values,
 * counter fields read with `|| 0`, arithmetic on a possibly missing
 * counter, how a counter is rendered, and `String.prototype.trim`.
 */
module JsValues {

  datatype Option<+T> = None | Some(value: T)

  /**
   * A counter field (`likesCount`, `commentsCount`) as the client finds it
   * in a document: missing, a number, or NaN (what `undefined - 1` gives).
   * Numbers are unbounded here; the counters never come near 2^53.
   */
  datatype Count = Absent | Num(n: int) | NaN

  /** `c || 0`: the falsy counters (missing, NaN and 0) read as 0. */
  function OrZero(c: Count): (r: int)
    ensures c.Num? ==> r == c.n
    ensures !c.Num? ==> r == 0
  {
    if c.Num? then c.n else 0
  }

  /** `(c || 0) + 1`, the increment the like and add-comment handlers write. */
  function Bumped(c: Count): (r: Count)
    ensures r.Num? && r.n == OrZero(c) + 1
    ensures OrZero(r) == OrZero(c) + 1
  {
    Num(OrZero(c) + 1)
  }

  /** `c - 1` with no default: a missing counter becomes NaN and NaN stays NaN. */
  function Decremented(c: Count): (r: Count)
    ensures c.Num? <==> r.Num?
    ensures c.Num? ==> r.n == c.n - 1
    ensures !c.Num? ==> r == NaN
  {
    match c
    case Absent => NaN
    case NaN => NaN
    case Num(n) => Num(n - 1)
  }

  /** Decrementing what an increment wrote brings back the number the increment started from. */
  lemma DecrementUndoesBump(c: Count)
    ensures Decremented(Bumped(c)) == Num(OrZero(c))
    ensures c.Num? ==> Decremented(Bumped(c)) == c
  {
  }

  /**
   * `Array.prototype.filter`, and the result of an equality `where` query
   * over a collection read in order: the elements `keep` accepts, in order.
   */
  function Filter<T>(s: seq<T>, keep: T -> bool): (r: seq<T>)
    ensures |r| <= |s|
  {
    if s == [] then []
    else (if keep(s[0]) then [s[0]] else []) + Filter(s[1..], keep)
  }

  /** The filter keeps exactly the accepted elements. */
  lemma {:induction false} FilterMembers<T>(s: seq<T>, keep: T -> bool)
    ensures forall x :: x in Filter(s, keep) <==> x in s && keep(x)
  {
    if s != [] {
      FilterMembers(s[1..], keep);
      assert s == [s[0]] + s[1..];
    }
  }

  /** A filter that accepts every element keeps the sequence intact. */
  lemma {:induction false} FilterAll<T>(s: seq<T>, keep: T -> bool)
    requires forall x :: x in s ==> keep(x)
    ensures Filter(s, keep) == s
  {
    if s != [] {
      FilterAll(s[1..], keep);
      assert s == [s[0]] + s[1..];
    }
  }

  /** The filter works piecewise over a concatenation, so the kept elements stay in their order. */
  lemma {:induction false} FilterAppend<T>(a: seq<T>, b: seq<T>, keep: T -> bool)
    ensures Filter(a + b, keep) == Filter(a, keep) + Filter(b, keep)
  {
    if a == [] {
      assert a + b == b;
    } else {
      var head := if keep(a[0]) then [a[0]] else [];
      assert (a + b)[0] == a[0];
      assert (a + b)[1..] == a[1..] + b;
      FilterAppend(a[1..], b, keep);
      calc {
        Filter(a + b, keep);
        head + Filter(a[1..] + b, keep);
        head + (Filter(a[1..], keep) + Filter(b, keep));
        (head + Filter(a[1..], keep)) + Filter(b, keep);
      }
    }
  }

  /** What JSX renders for a counter expression. */
  datatype Shown = Blank | Number(n: int) | NotANumber

  /** `{c}`: undefined renders nothing, NaN renders "NaN". */
  function RawShown(c: Count): (r: Shown)
    ensures r.Blank? <==> c.Absent?
    ensures r.NotANumber? <==> c.NaN?
    ensures c.Num? ==> r == Number(c.n)
  {
    match c
    case Absent => Blank
    case NaN => NotANumber
    case Num(n) => Number(n)
  }

  /** `{c || 0}`: always a number. */
  function DefaultedShown(c: Count): (r: Shown)
    ensures r.Number? && r.n == OrZero(c)
    ensures c.Num? ==> r == RawShown(c)
    ensures !c.Num? ==> r == Number(0)
  {
    Number(OrZero(c))
  }

  /** The characters `String.prototype.trim` removes: white space and line terminators. */
  predicate IsWhitespace(c: char) {
    || '\t' <= c <= '\r'   // tab, line feed, vertical tab, form feed, carriage return
    || c == ' ' || c == '\U{00A0}' || c == '\U{1680}'
    || '\U{2000}' <= c <= '\U{200A}'
    || c == '\U{2028}' || c == '\U{2029}' || c == '\U{202F}' || c == '\U{205F}'
    || c == '\U{3000}' || c == '\U{FEFF}'
  }

  predicate AllWhitespace(s: string) {
    forall i :: 0 <= i < |s| ==> IsWhitespace(s[i])
  }

  /** Removes leading white space. */
  function TrimStart(s: string): string {
    if s != [] && IsWhitespace(s[0]) then TrimStart(s[1..]) else s
  }

  /** Removes trailing white space. */
  function TrimEnd(s: string): string {
    if s != [] && IsWhitespace(s[|s| - 1]) then TrimEnd(s[..|s| - 1]) else s
  }

  /** `s.trim()` */
  function Trim(s: string): (r: string)
    ensures |r| <= |s|
  {
    TrimStartShape(s);
    TrimEndShape(TrimStart(s));
    TrimEnd(TrimStart(s))
  }

  /** `TrimStart` keeps a suffix that does not start with white space, and drops only white space. */
  lemma {:induction false} TrimStartShape(s: string)
    ensures var r := TrimStart(s);
      && |r| <= |s| && r == s[|s| - |r|..]
      && (r == [] || !IsWhitespace(r[0]))
      && AllWhitespace(s[..|s| - |r|])
  {
    if s != [] && IsWhitespace(s[0]) {
      TrimStartShape(s[1..]);
      var r := TrimStart(s);
      assert s[..|s| - |r|] == [s[0]] + s[1..][..|s| - 1 - |r|];
    } else {
      assert s[..0] == [];
    }
  }

  /** `TrimEnd` keeps a prefix that does not end with white space, and drops only white space. */
  lemma {:induction false} TrimEndShape(s: string)
    ensures var r := TrimEnd(s);
      && |r| <= |s| && r == s[..|r|]
      && (r == [] || !IsWhitespace(r[|r| - 1]))
      && AllWhitespace(s[|r|..])
  {
    if s != [] && IsWhitespace(s[|s| - 1]) {
      var init := s[..|s| - 1];
      TrimEndShape(init);
      var r := TrimEnd(s);
      assert s[|r|..] == init[|r|..] + [s[|s| - 1]];
      assert init[..|r|] == s[..|r|];
    } else {
      assert s[|s|..] == [];
    }
  }

  /** `trim` keeps a contiguous piece of the input that neither starts nor ends with white space. */
  lemma TrimShape(s: string)
    ensures |Trim(s)| <= |s|
    ensures exists k :: 0 <= k <= |s| && Trim(s) <= s[k..]
    ensures Trim(s) == [] || (!IsWhitespace(Trim(s)[0]) && !IsWhitespace(Trim(s)[|Trim(s)| - 1]))
  {
    var t := TrimStart(s);
    TrimStartShape(s);
    TrimEndShape(t);
    var r := Trim(s);
    assert r <= s[|s| - |t|..];
    if r != [] {
      assert r[0] == t[0];
    }
  }

  /** `!s.trim()` holds exactly when `s` is empty or made of white space only. */
  lemma {:induction false} TrimEmptyIffBlank(s: string)
    ensures Trim(s) == [] <==> AllWhitespace(s)
  {
    var t := TrimStart(s);
    var r := TrimEnd(t);
    TrimStartShape(s);
    TrimEndShape(t);
    if t != [] {
      assert t[0] == s[|s| - |t|];
      assert |r| > 0 by {
        assert !IsWhitespace(t[0]);
        assert t[0..] == t;
      }
    } else {
      assert s[..|s|] == s;
    }
  }
}
