/** Shared vocabulary: optional values, JSON-like payloads and the handful of
    Python string operations (`in`, `strip`, `split`, `join`, slicing, `int()`,
    `str()` of an int) that the service code relies on. */
module Common {

  datatype Option<+T> = None | Some(value: T)

  datatype Result<+T, +E> = Ok(value: T) | Err(error: E)

  /** A JSON-like value: what a request payload, a dict column or a report row
      holds once deserialised. `Time` is a Python `datetime` (its instant in
      seconds), which a row dict carries for its `DateTime` columns. */
  datatype Value =
    | Null
    | Str(s: string)
    | Int(i: int)
    | Bool(b: bool)
    | List(items: seq<Value>)
    | Object(fields: map<string, Value>)
    | Time(instant: int)

  /** Python truthiness of a value: None, "", 0, False, [] and {} are false;
      a `datetime` is true. */
  predicate Truthy(v: Value)
  {
    match v
    case Null => false
    case Str(s) => s != ""
    case Int(i) => i != 0
    case Bool(b) => b
    case List(items) => items != []
    case Object(fields) => fields != map[]
    case Time(_) => true
  }

  /** What the standard `json.dumps` accepts: a `datetime` anywhere inside
      makes it raise `TypeError`. */
  predicate JsonEncodable(v: Value)
  {
    match v
    case Time(_) => false
    case List(items) => forall i :: 0 <= i < |items| ==> JsonEncodable(items[i])
    case Object(fields) => forall k :: k in fields ==> JsonEncodable(fields[k])
    case _ => true
  }

  /** `d.get(k)`: the value under `k`, or None (Null) when absent. */
  function Get(d: map<string, Value>, k: string): (v: Value)
    ensures k !in d ==> v == Null
    ensures k in d ==> v == d[k]
  {
    if k in d then d[k] else Null
  }

  /** `d.get(k, default)`. */
  function GetOr(d: map<string, Value>, k: string, default: Value): (v: Value)
    ensures k in d ==> v == d[k]
    ensures k !in d ==> v == default
  {
    if k in d then d[k] else default
  }

  /** Python truthiness of an optional string (None and "" are false). */
  predicate Present(o: Option<string>)
  {
    o.Some? && o.value != ""
  }

  /** An optional string stored as a value: None becomes null. */
  function OptValue(o: Option<string>): (v: Value)
    ensures o.None? ==> v == Null
    ensures o.Some? ==> v == Str(o.value)
  {
    match o
    case None => Null
    case Some(s) => Str(s)
  }

  // ---------------------------------------------------------------- substrings

  /** `sub` occurs in `s` starting at index `i`. */
  predicate OccursAt(s: string, sub: string, i: nat)
  {
    i + |sub| <= |s| && s[i..i + |sub|] == sub
  }

  /** `sub in s` for strings. */
  predicate Contains(s: string, sub: string)
  {
    exists i: nat | i <= |s| :: OccursAt(s, sub, i)
  }

  lemma ContainsMiddle(a: string, b: string, c: string)
    ensures Contains(a + b + c, b)
  {
    var s := a + b + c;
    assert s[|a|..|a| + |b|] == b;
    assert OccursAt(s, b, |a|);
  }

  /** `mid` sits inside the last of two concatenated parts. */
  lemma ContainsInLast(x: string, y: string, mid: string, z: string)
    ensures Contains(x + (y + mid + z), mid)
  {
    assert x + (y + mid + z) == (x + y) + mid + z;
    ContainsMiddle(x + y, mid, z);
  }

  lemma ContainsPrefix(b: string, c: string)
    ensures Contains(b + c, b)
  {
    assert (b + c)[0..|b|] == b;
    assert OccursAt(b + c, b, 0);
  }

  lemma ContainsSuffix(a: string, b: string)
    ensures Contains(a + b, b)
  {
    assert (a + b)[|a|..|a| + |b|] == b;
    assert OccursAt(a + b, b, |a|);
  }

  /** What occurs in a piece occurs in any string around it. */
  lemma ContainsWithin(a: string, b: string, c: string, t: string)
    requires Contains(b, t)
    ensures Contains(a + b + c, t)
  {
    var i: nat :| i <= |b| && OccursAt(b, t, i);
    assert (a + b + c)[|a| + i..|a| + i + |t|] == b[i..i + |t|];
    assert OccursAt(a + b + c, t, |a| + i);
  }

  /** `in` is transitive. */
  lemma ContainsTransitive(s: string, m: string, t: string)
    requires Contains(s, m) && Contains(m, t)
    ensures Contains(s, t)
  {
    var i: nat :| i <= |s| && OccursAt(s, m, i);
    var j: nat :| j <= |m| && OccursAt(m, t, j);
    assert s[i..i + |m|] == m;
    forall k | 0 <= k < |t|
      ensures s[i + j..i + j + |t|][k] == t[k]
    {
      assert s[i + j + k] == s[i..i + |m|][j + k] == m[j + k] == m[j..j + |t|][k];
    }
    assert OccursAt(s, t, i + j);
  }

  /** An occurrence inside a prefix is an occurrence in the whole string. */
  lemma OccursInPrefix(s: string, sub: string, n: nat, i: nat)
    requires n <= |s| && OccursAt(s[..n], sub, i)
    ensures OccursAt(s, sub, i)
  {
    assert s[..n][i..i + |sub|] == s[i..i + |sub|];
  }

  /** Occurrences in a suffix shift by the suffix's start. */
  lemma OccursInSuffix(s: string, sub: string, n: nat, i: nat)
    requires n <= |s|
    ensures OccursAt(s[n..], sub, i) <==> OccursAt(s, sub, n + i)
  {
    if i + |sub| <= |s| - n {
      assert s[n..][i..i + |sub|] == s[n + i..n + i + |sub|];
    }
  }

  /** Index of the first occurrence of a non-empty `sep` in `s`, if any
      (`s.find(sep)`, with `None` for `-1`). */
  function Find(s: string, sep: string): (r: Option<nat>)
    requires sep != []
    ensures r.Some? ==> OccursAt(s, sep, r.value)
    ensures r.Some? ==> forall j: nat :: j < r.value ==> !OccursAt(s, sep, j)
    ensures r.None? ==> !Contains(s, sep)
  {
    FindFrom(s, sep, 0)
  }

  /** The first occurrence of `sep` at index `from` or later. */
  function FindFrom(s: string, sep: string, from: nat): (r: Option<nat>)
    requires sep != []
    ensures r.Some? ==> from <= r.value && OccursAt(s, sep, r.value)
    ensures r.Some? ==> forall j: nat :: from <= j < r.value ==> !OccursAt(s, sep, j)
    ensures r.None? ==> forall j: nat :: from <= j ==> !OccursAt(s, sep, j)
    decreases |s| - from
  {
    if |s| < from + |sep| then None
    else if OccursAt(s, sep, from) then Some(from)
    else FindFrom(s, sep, from + 1)
  }

  lemma FindIffContains(s: string, sep: string)
    requires sep != []
    ensures Find(s, sep).Some? <==> Contains(s, sep)
  {
  }

  // ---------------------------------------------------------------- split/join

  /** Python's `s.split(sep)` for a non-empty separator. */
  function Split(s: string, sep: string): (parts: seq<string>)
    requires sep != []
    ensures |parts| >= 1
    decreases |s|
  {
    match Find(s, sep)
    case None => [s]
    case Some(i) => [s[..i]] + Split(s[i + |sep|..], sep)
  }

  /** `sep.join(parts)`. */
  function Join(parts: seq<string>, sep: string): string
  {
    if |parts| == 0 then ""
    else if |parts| == 1 then parts[0]
    else parts[0] + sep + Join(parts[1..], sep)
  }

  lemma JoinCons(head: string, tail: seq<string>, sep: string)
    requires |tail| >= 1
    ensures Join([head] + tail, sep) == head + sep + Join(tail, sep)
  {
    assert ([head] + tail)[1..] == tail;
  }

  lemma OccursSplit(s: string, sep: string, i: nat)
    requires OccursAt(s, sep, i)
    ensures s == s[..i] + sep + s[i + |sep|..]
  {
    assert s == s[..i] + s[i..i + |sep|] + s[i + |sep|..];
  }

  /** Splitting and joining back with the same separator gives the original. */
  lemma {:induction false} JoinSplit(s: string, sep: string)
    requires sep != []
    ensures Join(Split(s, sep), sep) == s
    decreases |s|
  {
    match Find(s, sep)
    case None =>
    case Some(i) =>
      var rest := s[i + |sep|..];
      JoinSplit(rest, sep);
      JoinCons(s[..i], Split(rest, sep), sep);
      OccursSplit(s, sep, i);
  }

  /** The text before the first separator holds no separator. */
  lemma HeadFree(s: string, sep: string)
    requires sep != [] && Find(s, sep).Some?
    ensures !Contains(s[..Find(s, sep).value], sep)
  {
    var i := Find(s, sep).value;
    if Contains(s[..i], sep) {
      var j: nat :| OccursAt(s[..i], sep, j);
      OccursInPrefix(s, sep, i, j);
      assert false;
    }
  }

  /** No piece of a split contains the separator. */
  lemma {:induction false} SplitPiecesFree(s: string, sep: string)
    requires sep != []
    ensures forall p :: p in Split(s, sep) ==> !Contains(p, sep)
    decreases |s|
  {
    match Find(s, sep)
    case None =>
    case Some(i) =>
      SplitPiecesFree(s[i + |sep|..], sep);
      HeadFree(s, sep);
  }

  /** Number of occurrences of the character `c` in `s`. */
  function CountChar(s: string, c: char): nat
  {
    if s == [] then 0 else (if s[0] == c then 1 else 0) + CountChar(s[1..], c)
  }

  lemma CountCharAppend(a: string, b: string, c: char)
    ensures CountChar(a + b, c) == CountChar(a, c) + CountChar(b, c)
  {
    if a == [] {
      assert a + b == b;
    } else {
      assert (a + b)[1..] == a[1..] + b;
      CountCharAppend(a[1..], b, c);
    }
  }

  lemma {:induction false} CountCharFree(s: string, c: char)
    requires !Contains(s, [c])
    ensures CountChar(s, c) == 0
  {
    if s != [] {
      assert s[0..1] == [s[0]];
      assert !OccursAt(s, [c], 0);
      forall j: nat | j <= |s[1..]|
        ensures !OccursAt(s[1..], [c], j)
      {
        OccursInSuffix(s, [c], 1, j);
      }
      CountCharFree(s[1..], c);
    }
  }

  /** Splitting on one character yields one more piece than there are
      occurrences of that character. */
  lemma {:induction false} SplitCharCount(s: string, c: char)
    ensures |Split(s, [c])| == CountChar(s, c) + 1
    decreases |s|
  {
    var sep := [c];
    match Find(s, sep)
    case None =>
      CountCharFree(s, c);
    case Some(i) =>
      var rest := s[i + 1..];
      SplitCharCount(rest, c);
      assert s == s[..i] + [c] + rest;
      CountCharAppend(s[..i] + [c], rest, c);
      CountCharAppend(s[..i], [c], c);
      HeadFree(s, sep);
      CountCharFree(s[..i], c);
      assert CountChar([c], c) == 1;
  }

  /** The last piece of `s.split(sep)`, i.e. `s.split(sep)[-1]`: the text after
      the last occurrence of `sep` (all of `s` when there is none). */
  function LastPiece(s: string, sep: string): string
    requires sep != []
  {
    var parts := Split(s, sep);
    parts[|parts| - 1]
  }

  /** The first piece of `s.split(sep)`, i.e. `s.split(sep)[0]`. */
  function FirstPiece(s: string, sep: string): string
    requires sep != []
  {
    Split(s, sep)[0]
  }

  /** The last piece is the suffix after the last separator (all of `s` when
      there is none), and holds no separator. */
  lemma LastPieceAfter(s: string, sep: string)
    requires sep != []
    ensures |LastPiece(s, sep)| <= |s| && LastPiece(s, sep) == s[|s| - |LastPiece(s, sep)|..]
    ensures !Contains(LastPiece(s, sep), sep)
    ensures Contains(s, sep) ==> (|LastPiece(s, sep)| + |sep| <= |s|
      && OccursAt(s, sep, |s| - |LastPiece(s, sep)| - |sep|))
    ensures !Contains(s, sep) ==> LastPiece(s, sep) == s
  {
    LastPieceSuffix(s, sep);
    LastPieceFree(s, sep);
    LastPieceWhole(s, sep);
    LastPieceOccurs(s, sep);
  }

  lemma {:induction false} LastPieceSuffix(s: string, sep: string)
    requires sep != []
    ensures |LastPiece(s, sep)| <= |s| && LastPiece(s, sep) == s[|s| - |LastPiece(s, sep)|..]
    decreases |s|
  {
    match Find(s, sep)
    case None =>
      assert Split(s, sep) == [s];
    case Some(i) =>
      var rest := s[i + |sep|..];
      var p := LastPiece(rest, sep);
      LastPieceSuffix(rest, sep);
      LastPieceStep(s, sep, i);
      TailOfSuffix(s, i + |sep|, |p|);
  }

  lemma {:induction false} LastPieceFree(s: string, sep: string)
    requires sep != []
    ensures !Contains(LastPiece(s, sep), sep)
    decreases |s|
  {
    match Find(s, sep)
    case None =>
      assert Split(s, sep) == [s];
    case Some(i) =>
      LastPieceFree(s[i + |sep|..], sep);
      LastPieceStep(s, sep, i);
  }

  lemma LastPieceWhole(s: string, sep: string)
    requires sep != []
    ensures !Contains(s, sep) ==> LastPiece(s, sep) == s
  {
    match Find(s, sep)
    case None =>
      assert Split(s, sep) == [s];
    case Some(i) =>
      assert OccursAt(s, sep, i);
  }

  lemma {:induction false} LastPieceOccurs(s: string, sep: string)
    requires sep != []
    ensures Contains(s, sep) ==> (|LastPiece(s, sep)| + |sep| <= |s|
      && OccursAt(s, sep, |s| - |LastPiece(s, sep)| - |sep|))
    decreases |s|, 1
  {
    match Find(s, sep)
    case None =>
    case Some(i) =>
      LastPieceOccursAfter(s, sep, i);
  }

  /** The step of `LastPieceOccurs` when `sep` first occurs at `i`. */
  lemma {:induction false} LastPieceOccursAfter(s: string, sep: string, i: nat)
    requires sep != [] && Find(s, sep) == Some(i)
    ensures |LastPiece(s, sep)| + |sep| <= |s|
    ensures OccursAt(s, sep, |s| - |LastPiece(s, sep)| - |sep|)
    decreases |s|, 0
  {
    var rest := s[i + |sep|..];
    var p := LastPiece(s, sep);
    assert p == LastPiece(rest, sep) by { LastPieceStep(s, sep, i); }
    LastPieceOccurs(rest, sep);
    LastPieceSuffix(rest, sep);
    LastPieceWhole(rest, sep);
    SuffixPiece(s, sep, i + |sep|, rest, p, Contains(rest, sep));
  }

  /** Index arithmetic of `LastPieceOccurs`: a trailing piece of `s[n..]` that
      follows an occurrence of `sep` (or is all of `s[n..]`, right after the
      occurrence ending at `n`) is preceded in `s` by an occurrence of `sep`. */
  lemma SuffixPiece(s: string, sep: string, n: nat, rest: string, p: string, found: bool)
    requires |sep| <= n <= |s| && OccursAt(s, sep, n - |sep|) && rest == s[n..]
    requires |p| <= |rest| && p == rest[|rest| - |p|..]
    requires found ==> |p| + |sep| <= |rest| && OccursAt(rest, sep, |rest| - |p| - |sep|)
    requires !found ==> p == rest
    ensures |p| + |sep| <= |s| && OccursAt(s, sep, |s| - |p| - |sep|)
  {
    if found {
      OccursInSuffix(s, sep, n, |rest| - |p| - |sep|);
    }
  }

  lemma LastPieceStep(s: string, sep: string, i: nat)
    requires sep != [] && Find(s, sep) == Some(i)
    ensures LastPiece(s, sep) == LastPiece(s[i + |sep|..], sep)
  {
    var tail := Split(s[i + |sep|..], sep);
    assert Split(s, sep) == [s[..i]] + tail;
    LastOfCons(s[..i], tail);
  }

  lemma LastOfCons(x: string, tail: seq<string>)
    requires |tail| >= 1
    ensures ([x] + tail)[|[x] + tail| - 1] == tail[|tail| - 1]
  {
  }

  /** The last `k` elements of a suffix are the last `k` of the whole. */
  lemma TailOfSuffix(s: string, n: nat, k: nat)
    requires n <= |s| && k <= |s| - n
    ensures s[n..][|s| - n - k..] == s[|s| - k..]
  {
  }

  /** The first piece is the prefix before the first separator (all of `s`
      when there is none), and holds no separator. */
  lemma FirstPieceBefore(s: string, sep: string)
    requires sep != []
    ensures |FirstPiece(s, sep)| <= |s| && FirstPiece(s, sep) == s[..|FirstPiece(s, sep)|]
    ensures !Contains(FirstPiece(s, sep), sep)
    ensures Contains(s, sep) ==> OccursAt(s, sep, |FirstPiece(s, sep)|)
    ensures !Contains(s, sep) ==> FirstPiece(s, sep) == s
  {
    match Find(s, sep)
    case None =>
    case Some(i) =>
      HeadFree(s, sep);
  }

  /** Joining pieces free of the character `c` with `c` and splitting the
      result on `c` gives the pieces back. */
  lemma {:induction false} SplitCharJoin(parts: seq<string>, c: char)
    requires |parts| >= 1
    requires forall p :: p in parts ==> !Contains(p, [c])
    ensures Split(Join(parts, [c]), [c]) == parts
    decreases |parts|
  {
    if |parts| == 1 {
      assert Join(parts, [c]) == parts[0];
      assert parts[0] in parts;
    } else {
      var p0 := parts[0];
      var rest := Join(parts[1..], [c]);
      var s := p0 + [c] + rest;
      assert Join(parts, [c]) == s;
      assert OccursAt(s, [c], |p0|) by { assert s[|p0|..|p0| + 1] == [c]; }
      assert p0 in parts;
      forall j: nat | j < |p0|
        ensures !OccursAt(s, [c], j)
      {
        assert s[j..j + 1] == p0[j..j + 1];
        assert !OccursAt(p0, [c], j);
      }
      var f := Find(s, [c]);
      assert f == Some(|p0|);
      assert s[..|p0|] == p0;
      assert s[|p0| + 1..] == rest;
      forall p | p in parts[1..] ensures !Contains(p, [c]) {
        assert p in parts;
      }
      SplitCharJoin(parts[1..], c);
      assert parts == [p0] + parts[1..];
    }
  }

  /** `s[..n]` with Python's clamping of an out-of-range bound. */
  function Take(s: string, n: nat): (r: string)
    ensures |r| == if |s| < n then |s| else n
    ensures r == s[..|r|]
  {
    if |s| <= n then s else s[..n]
  }

  // ---------------------------------------------------------------- whitespace

  /** The ASCII whitespace characters that `str.strip()` removes. */
  predicate IsSpace(c: char)
  {
    c == ' ' || c == '\t' || c == '\n' || c == '\r' || c == '\U{B}' || c == '\U{C}'
  }

  function StripLeft(s: string): (r: string)
    ensures |r| <= |s| && r == s[|s| - |r|..]
    ensures r == [] || !IsSpace(r[0])
    ensures forall i :: 0 <= i < |s| - |r| ==> IsSpace(s[i])
  {
    s[SpaceRun(s, 0)..]
  }

  /** The end of the run of whitespace starting at `from`. */
  function SpaceRun(s: string, from: nat): (k: nat)
    requires from <= |s|
    ensures from <= k <= |s| && (k == |s| || !IsSpace(s[k]))
    ensures forall i :: from <= i < k ==> IsSpace(s[i])
    decreases |s| - from
  {
    if from < |s| && IsSpace(s[from]) then SpaceRun(s, from + 1) else from
  }

  function StripRight(s: string): (r: string)
    ensures |r| <= |s| && r == s[..|r|]
    ensures r == [] || !IsSpace(r[|r| - 1])
    ensures forall i :: |r| <= i < |s| ==> IsSpace(s[i])
  {
    if s != [] && IsSpace(s[|s| - 1]) then
      var r := StripRight(s[..|s| - 1]);
      assert s[..|s| - 1][..|r|] == s[..|r|];
      r
    else s
  }

  /** `s.strip()`: the longest infix without leading or trailing whitespace. */
  function Strip(s: string): (r: string)
    ensures |r| <= |s|
    ensures r == [] || (!IsSpace(r[0]) && !IsSpace(r[|r| - 1]))
  {
    StripRight(StripLeft(s))
  }

  lemma StripLeftOfUnspaced(s: string)
    requires s == [] || !IsSpace(s[0])
    ensures StripLeft(s) == s
  {
  }

  lemma StripRightOfUnspaced(s: string)
    requires s == [] || !IsSpace(s[|s| - 1])
    ensures StripRight(s) == s
  {
  }

  /** Stripping twice is stripping once. */
  lemma StripIdempotent(s: string)
    ensures Strip(Strip(s)) == Strip(s)
  {
    var r := Strip(s);
    StripLeftOfUnspaced(r);
    StripRightOfUnspaced(r);
  }

  /** A string that is all whitespace strips to "". */
  lemma StripAllSpace(s: string)
    requires forall i :: 0 <= i < |s| ==> IsSpace(s[i])
    ensures Strip(s) == ""
  {
  }

  // ---------------------------------------------------------------- integers

  function DigitChar(d: nat): (c: char)
    requires d < 10
  {
    "0123456789"[d]
  }

  predicate IsDigit(c: char)
  {
    '0' <= c <= '9'
  }

  function DigitValue(c: char): (d: nat)
    requires IsDigit(c)
    ensures d < 10
  {
    (c as int) - ('0' as int)
  }

  /** Decimal digits of a natural number, no leading zeros. */
  function NatToString(n: nat): (r: string)
    ensures |r| >= 1
    ensures forall i :: 0 <= i < |r| ==> IsDigit(r[i])
    decreases n
  {
    if n < 10 then [DigitChar(n)] else NatToString(n / 10) + [DigitChar(n % 10)]
  }

  /** A minus sign in front of the digits of a magnitude. */
  function WithMinus(digits: string): string
  {
    "-" + digits
  }

  /** `str(i)` of a Python int. */
  function IntToString(i: int): (r: string)
    ensures |r| >= 1
  {
    if i < 0 then WithMinus(NatToString(-i)) else NatToString(i)
  }

  /** Value of a non-empty string of decimal digits. */
  function DigitsValue(s: string): nat
    requires forall i :: 0 <= i < |s| ==> IsDigit(s[i])
  {
    if s == [] then 0 else DigitsValue(s[..|s| - 1]) * 10 + DigitValue(s[|s| - 1])
  }

  predicate AllDigits(s: string)
  {
    forall i :: 0 <= i < |s| ==> IsDigit(s[i])
  }

  /** Python's `int(text)` on a string: surrounding whitespace, an optional
      sign and at least one decimal digit; anything else raises ValueError
      (None here). */
  function ParseInt(text: string): (r: Option<int>)
  {
    ParseSigned(Strip(text))
  }

  /** `int` on text that is already stripped. */
  function ParseSigned(t: string): (r: Option<int>)
  {
    if t != [] && (t[0] == '-' || t[0] == '+') then
      var body := t[1..];
      if body != [] && AllDigits(body) then
        var magnitude: int := DigitsValue(body);
        Some(if t[0] == '-' then -magnitude else magnitude)
      else None
    else if t != [] && AllDigits(t) then Some(DigitsValue(t))
    else None
  }

  lemma {:induction false} DigitsOfNat(n: nat)
    ensures AllDigits(NatToString(n))
    ensures DigitsValue(NatToString(n)) == n
    decreases n
  {
    var s := NatToString(n);
    if n >= 10 {
      DigitsOfNat(n / 10);
      assert s[..|s| - 1] == NatToString(n / 10);
      assert DigitValue(s[|s| - 1]) == n % 10;
    } else {
      assert DigitValue(s[0]) == n;
    }
  }

  lemma NatStringUnspaced(n: nat)
    ensures Strip(NatToString(n)) == NatToString(n)
  {
    var s := NatToString(n);
    assert !IsSpace(s[0]) && !IsSpace(s[|s| - 1]);
    StripLeftOfUnspaced(s);
    StripRightOfUnspaced(s);
  }

  /** A string with no whitespace at either end is its own `strip()`. */
  lemma StripUnspaced(s: string)
    requires s == [] || (!IsSpace(s[0]) && !IsSpace(s[|s| - 1]))
    ensures Strip(s) == s
  {
    StripLeftOfUnspaced(s);
    StripRightOfUnspaced(s);
  }

  lemma SignedNegative(d: string)
    requires d != [] && AllDigits(d)
    ensures ParseSigned(WithMinus(d)) == Some(-(DigitsValue(d) as int))
  {
    assert WithMinus(d)[0] == '-' && WithMinus(d)[1..] == d;
  }

  lemma ParseUnspaced(s: string)
    requires s != [] && !IsSpace(s[0]) && !IsSpace(s[|s| - 1])
    ensures ParseInt(s) == ParseSigned(s)
  {
    StripUnspaced(s);
  }

  lemma NegativeDigits(d: string, v: nat)
    requires d != [] && AllDigits(d) && DigitsValue(d) == v
    ensures ParseInt(WithMinus(d)) == Some(-(v as int))
  {
    SignedNegative(d);
    var s := WithMinus(d);
    assert s[0] == '-' && s[|s| - 1] == d[|d| - 1];
    ParseUnspaced(s);
  }

  lemma NegativeString(n: nat)
    requires n > 0
    ensures ParseInt(WithMinus(NatToString(n))) == Some(-(n as int))
  {
    DigitsOfNat(n);
    NegativeDigits(NatToString(n), n);
  }

  lemma NaturalString(n: nat)
    ensures ParseInt(NatToString(n)) == Some(n)
  {
    DigitsOfNat(n);
    NatStringUnspaced(n);
  }

  /** `int(str(i)) == i`. */
  lemma ParseIntToString(i: int)
    ensures ParseInt(IntToString(i)) == Some(i)
  {
    if i < 0 {
      IntToStringNegative(i);
    } else {
      IntToStringNatural(i);
    }
  }

  lemma IntToStringNegative(i: int)
    requires i < 0
    ensures ParseInt(IntToString(i)) == Some(i)
  {
    var n: nat := -i;
    assert IntToString(i) == WithMinus(NatToString(n));
    assert ParseInt(WithMinus(NatToString(n))) == Some(i) by {
      NegativeString(n);
    }
  }

  lemma IntToStringNatural(i: int)
    requires i >= 0
    ensures ParseInt(IntToString(i)) == Some(i)
  {
    NaturalString(i);
  }

  /** Zero-padded decimal of width `w` (the `%02d`/`%04d` of strftime). */
  function Pad(n: nat, w: nat): (r: string)
    ensures |r| == w
    ensures AllDigits(r)
    decreases w
  {
    if w == 0 then "" else Pad(n / 10, w - 1) + [DigitChar(n % 10)]
  }

  function Pow10(w: nat): (r: nat)
    ensures r >= 1
  {
    if w == 0 then 1 else 10 * Pow10(w - 1)
  }

  /** A number below `10^w` reads back from its `w`-digit padding. */
  lemma {:induction false} PadValue(n: nat, w: nat)
    requires n < Pow10(w)
    ensures DigitsValue(Pad(n, w)) == n
    decreases w
  {
    if w > 0 {
      assert n / 10 < Pow10(w - 1);
      PadValue(n / 10, w - 1);
      var r := Pad(n, w);
      assert r[..|r| - 1] == Pad(n / 10, w - 1);
      assert DigitValue(r[|r| - 1]) == n % 10;
    }
  }

  lemma {:induction false} SubsetSize<T>(a: set<T>, b: set<T>)
    requires a <= b
    ensures |a| <= |b|
  {
    if a != {} {
      var x :| x in a;
      SubsetSize(a - {x}, b - {x});
    }
  }
}
