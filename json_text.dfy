/**
 * The text helpers of the index.json parsers: key lookup (`"key":`), quoted-string and
 * integer extraction, locating an array's `[`, brace-balanced object extraction and
 * top-level array sizing. Both parser generations carry identical copies of these
 * helpers; they are modelled once here.
 *
 * A text is the characters before its terminating NUL: the end of the sequence plays
 * the part of the C terminator. Strings are taken without escape handling (a `\"` ends
 * a string, unlike section 7 of RFC 8259), and numbers are read as ISO C11 7.22.1.2
 * `atoi` reads them.
 */
module JsonText {
  import opened Esp
  import opened Search

  /** The characters a C string function sees of a buffer: those before the first NUL. */
  function CStr(s: seq<char>): (r: seq<char>)
    ensures |r| <= |s| && r == s[..|r|]
    ensures '\0' !in r
    ensures |r| < |s| ==> s[|r|] == '\0'
  {
    if |s| == 0 || s[0] == '\0' then [] else [s[0]] + CStr(s[1..])
  }

  /** The whitespace the helpers skip after a key: space, tab, LF and CR. */
  predicate IsWs(c: char) {
    c == ' ' || c == '\t' || c == '\n' || c == '\r'
  }

  /** C `isspace`, which `atoi` skips: space and tab, LF, VT, FF, CR. */
  predicate IsSpace(c: char) {
    c == ' ' || ('\t' <= c <= '\r')
  }

  predicate IsDigit(c: char) {
    '0' <= c <= '9'
  }

  /** First position at or after `i` whose character does not satisfy `keep`. */
  function SkipWhile(s: seq<char>, i: nat, keep: char -> bool): (r: nat)
    requires i <= |s|
    ensures i <= r <= |s|
    ensures forall k :: i <= k < r ==> keep(s[k])
    ensures r == |s| || !keep(s[r])
    decreases |s| - i
  {
    if i < |s| && keep(s[i]) then SkipWhile(s, i + 1, keep) else i
  }

  /** A run of `keep` characters followed by one that is not (or the end) is skipped whole. */
  lemma {:induction false} SkipWhileRun(s: seq<char>, i: nat, j: nat, keep: char -> bool)
    requires i <= j <= |s|
    requires forall k :: i <= k < j ==> keep(s[k])
    requires j == |s| || !keep(s[j])
    ensures SkipWhile(s, i, keep) == j
    decreases j - i
  {
    if i < j {
      SkipWhileRun(s, i + 1, j, keep);
    }
  }

  /** The pointer-walking skip loop of the helpers. */
  method Skip(s: seq<char>, i: nat, keep: char -> bool) returns (r: nat)
    requires i <= |s|
    ensures r == SkipWhile(s, i, keep)
  {
    r := i;
    while r < |s| && keep(s[r])
      invariant i <= r <= |s|
      invariant SkipWhile(s, r, keep) == SkipWhile(s, i, keep)
      decreases |s| - r
    {
      r := r + 1;
    }
  }

  /** The pattern the helpers search for: `"key":`. */
  function KeyPattern(key: string): string {
    "\"" + key + "\":"
  }

  /** `p` is the leftmost occurrence of `"key":` in `s`. */
  ghost predicate FirstKey(s: seq<char>, key: string, p: int) {
    OccursAt(s, KeyPattern(key), p) && forall q :: 0 <= q < p ==> !OccursAt(s, KeyPattern(key), q)
  }

  /**
   * Where a key's value starts: after the leftmost `"key":` and the whitespace that
   * follows it; -1 when the key is absent.
   */
  function ValueAt(s: seq<char>, key: string): (v: int)
    ensures -1 <= v <= |s|
  {
    var p := IndexOf(s, KeyPattern(key), 0, |s|);
    if p == -1 then -1
    else
      IndexOfSound(s, KeyPattern(key), 0, |s|);
      SkipWhile(s, p + |KeyPattern(key)|, IsWs)
  }

  /**
   * The value is -1 exactly when `"key":` does not occur; otherwise it is reached from
   * the leftmost `"key":` by skipping whitespace only.
   */
  lemma ValueAtKey(s: seq<char>, key: string)
    ensures ValueAt(s, key) == -1 <==> forall q :: 0 <= q ==> !OccursAt(s, KeyPattern(key), q)
    ensures ValueAt(s, key) != -1 ==>
      exists p :: FirstKey(s, key, p) && p + |KeyPattern(key)| <= ValueAt(s, key) &&
        (forall k :: p + |KeyPattern(key)| <= k < ValueAt(s, key) ==> IsWs(s[k])) &&
        (ValueAt(s, key) == |s| || !IsWs(s[ValueAt(s, key)]))
  {
    IndexOfSound(s, KeyPattern(key), 0, |s|);
    var p := IndexOf(s, KeyPattern(key), 0, |s|);
    if p != -1 {
      assert FirstKey(s, key, p);
    }
  }

  /** The key lookup and whitespace skip shared by the helpers. */
  method FindValue(s: seq<char>, key: string) returns (v: int)
    ensures v == ValueAt(s, key)
  {
    var p := Find(s, KeyPattern(key), 0);
    if p == -1 {
      return -1;
    }
    IndexOfSound(s, KeyPattern(key), 0, |s|);
    v := Skip(s, p + |KeyPattern(key)|, IsWs);
  }

  // ---------------------------------------------------------------- extract_string

  /**
   * `extract_string`: the text strictly between the `"` that opens the value of `key`
   * and the next `"`; `None` when the key is absent, its value does not start with `"`,
   * or no closing `"` follows.
   */
  function StringValue(s: seq<char>, key: string): (r: Option<string>) {
    var v := ValueAt(s, key);
    if v == -1 || v == |s| || s[v] != '"' then None
    else
      var e := IndexOf(s, ['"'], v + 1, |s|);
      if e == -1 then None
      else
        IndexOfSound(s, ['"'], v + 1, |s|);
        Some(s[v + 1..e])
  }

  /**
   * A string value lies between two quotes right after the key and its whitespace, and
   * holds no quote; there is none exactly in the three failure cases.
   */
  lemma StringValueSpec(s: seq<char>, key: string)
    ensures var v := ValueAt(s, key);
      StringValue(s, key).None? <==>
        v == -1 || v == |s| || s[v] != '"' || forall k :: v + 1 <= k < |s| ==> s[k] != '"'
    ensures var v := ValueAt(s, key);
      StringValue(s, key).Some? ==>
        var r := StringValue(s, key).value;
        0 <= v && v + |r| + 1 < |s| && s[v] == '"' && s[v + 1..v + 1 + |r|] == r &&
        s[v + 1 + |r|] == '"' && forall k :: 0 <= k < |r| ==> r[k] != '"'
  {
    var v := ValueAt(s, key);
    if v != -1 && v < |s| && s[v] == '"' {
      IndexOfSound(s, ['"'], v + 1, |s|);
      var e := IndexOf(s, ['"'], v + 1, |s|);
      if e == -1 {
        forall k | v + 1 <= k < |s|
          ensures s[k] != '"'
        {
          assert !OccursAt(s, ['"'], k);
          assert s[k..k + 1] == [s[k]];
        }
      } else {
        assert s[e..e + 1][0] == s[e];
        forall k | v + 1 <= k < e
          ensures s[k] != '"'
        {
          assert !OccursAt(s, ['"'], k);
          assert s[k..k + 1] == [s[k]];
        }
      }
    }
  }

  /** `extract_string` (allocation of the copy is not modelled). */
  method ExtractString(s: seq<char>, key: string) returns (r: Option<string>)
    ensures r == StringValue(s, key)
  {
    var v := FindValue(s, key);
    if v == -1 || v == |s| || s[v] != '"' {
      return None;
    }
    var e := Find(s, ['"'], v + 1);
    if e == -1 {
      return None;
    }
    IndexOfSound(s, ['"'], v + 1, |s|);
    r := Some(s[v + 1..e]);
  }

  // ---------------------------------------------------------------- atoi, extract_int

  function DigitValue(c: char): nat
    requires IsDigit(c)
  {
    (c as int) - ('0' as int)
  }

  /** The value of a run of decimal digits, most significant first. */
  function DigitsValue(ds: seq<char>): nat
    requires forall k :: 0 <= k < |ds| ==> IsDigit(ds[k])
  {
    if |ds| == 0 then 0 else DigitsValue(ds[..|ds| - 1]) * 10 + DigitValue(ds[|ds| - 1])
  }

  /** Position of the first digit `atoi` reads from `b`: just past a sign, if any. */
  function DigitsStart(s: seq<char>, b: nat): (d: nat)
    requires b <= |s|
    ensures b <= d <= |s|
  {
    if b < |s| && (s[b] == '-' || s[b] == '+') then b + 1 else b
  }

  /**
   * ISO C11 7.22.1.2 `atoi` on the text from `i`: leading `isspace` characters, an
   * optional sign, then the longest run of decimal digits; 0 when there are none.
   */
  function Atoi(s: seq<char>, i: nat): int
    requires i <= |s|
  {
    var b := SkipWhile(s, i, IsSpace);
    var d := DigitsStart(s, b);
    var e := SkipWhile(s, d, IsDigit);
    var n: int := DigitsValue(s[d..e]);
    if b < |s| && s[b] == '-' then -n else n
  }

  /** `atoi` as the C library computes it: one digit at a time. */
  method AtoiScan(s: seq<char>, i: nat) returns (v: int)
    requires i <= |s|
    ensures v == Atoi(s, i)
  {
    var b := Skip(s, i, IsSpace);
    var d := DigitsStart(s, b);
    var k := d;
    var n := 0;
    while k < |s| && IsDigit(s[k])
      invariant d <= k <= |s|
      invariant forall j :: d <= j < k ==> IsDigit(s[j])
      invariant SkipWhile(s, k, IsDigit) == SkipWhile(s, d, IsDigit)
      invariant n == DigitsValue(s[d..k])
      decreases |s| - k
    {
      assert s[d..k + 1][..k - d] == s[d..k];
      n := n * 10 + DigitValue(s[k]);
      k := k + 1;
    }
    v := if b < |s| && s[b] == '-' then -n else n;
  }

  /** Decimal digits of `n`, most significant first, without leading zeros. */
  function DecimalText(n: nat): (t: string)
    ensures |t| > 0 && forall k :: 0 <= k < |t| ==> IsDigit(t[k])
  {
    if n < 10 then [('0' as int + n) as char]
    else DecimalText(n / 10) + [('0' as int + n % 10) as char]
  }

  /** How an integer is written in index.json: an optional `-`, then its digits. */
  function IntText(x: int): string {
    if x < 0 then "-" + DecimalText(-x) else DecimalText(x)
  }

  /** Reading the digits of `n` back gives `n`. */
  lemma {:induction false} DecimalRoundTrip(n: nat)
    ensures DigitsValue(DecimalText(n)) == n
  {
    var t := DecimalText(n);
    if n >= 10 {
      DecimalRoundTrip(n / 10);
      assert t[..|t| - 1] == DecimalText(n / 10);
    }
  }

  /**
   * `atoi` undoes `IntText`: an integer written at `i` and followed by anything that is
   * not a digit reads back as itself.
   */
  lemma AtoiIntText(s: seq<char>, i: nat, x: int)
    requires i + |IntText(x)| <= |s| && s[i..i + |IntText(x)|] == IntText(x)
    requires i + |IntText(x)| == |s| || !IsDigit(s[i + |IntText(x)|])
    ensures Atoi(s, i) == x
  {
    var t := IntText(x);
    var digits := DecimalText(if x < 0 then -x else x);
    assert s[i] == t[0];
    SkipWhileRun(s, i, i, IsSpace);
    var d := if x < 0 then i + 1 else i;
    var e := i + |t|;
    assert s[d..e] == digits;
    forall k | d <= k < e
      ensures IsDigit(s[k])
    {
      assert s[k] == digits[k - d];
    }
    SkipWhileRun(s, d, e, IsDigit);
    DecimalRoundTrip(if x < 0 then -x else x);
  }

  /** `extract_int`: `atoi` of the value of `key`, or 0 when the key is absent. */
  function IntValue(s: seq<char>, key: string): int {
    var v := ValueAt(s, key);
    if v == -1 then 0 else Atoi(s, v)
  }

  /** An absent key reads as 0. */
  lemma IntValueAbsent(s: seq<char>, key: string)
    requires forall q :: 0 <= q ==> !OccursAt(s, KeyPattern(key), q)
    ensures IntValue(s, key) == 0
  {
    ValueAtKey(s, key);
  }

  /**
   * A key whose value is an integer written as `IntText` (followed by a non-digit, such
   * as `,` or `}`) reads as that integer.
   */
  lemma IntValueOf(s: seq<char>, key: string, x: int)
    requires 0 <= ValueAt(s, key)
    requires ValueAt(s, key) + |IntText(x)| <= |s|
    requires s[ValueAt(s, key)..ValueAt(s, key) + |IntText(x)|] == IntText(x)
    requires ValueAt(s, key) + |IntText(x)| == |s| || !IsDigit(s[ValueAt(s, key) + |IntText(x)|])
    ensures IntValue(s, key) == x
  {
    AtoiIntText(s, ValueAt(s, key), x);
  }

  /** `extract_int`. */
  method ExtractInt(s: seq<char>, key: string) returns (n: int)
    ensures n == IntValue(s, key)
  {
    var v := FindValue(s, key);
    if v == -1 {
      return 0;
    }
    n := AtoiScan(s, v);
  }

  // ---------------------------------------------------------------- find_array

  /**
   * `find_array`: the position of the `[` that opens the value of `key`, or -1 when the
   * key is absent or its value does not start with `[`.
   */
  function ArrayAt(s: seq<char>, key: string): (a: int)
    ensures -1 <= a < |s|
  {
    var v := ValueAt(s, key);
    if v == -1 || v == |s| || s[v] != '[' then -1 else v
  }

  /** A found array starts with `[` reached from the leftmost `"key":` over whitespace only. */
  lemma ArrayAtSpec(s: seq<char>, key: string)
    ensures ArrayAt(s, key) == -1 <==>
      ValueAt(s, key) == -1 || ValueAt(s, key) == |s| || s[ValueAt(s, key)] != '['
    ensures ArrayAt(s, key) != -1 ==>
      s[ArrayAt(s, key)] == '[' &&
      exists p :: FirstKey(s, key, p) && p + |KeyPattern(key)| <= ArrayAt(s, key) &&
        forall k :: p + |KeyPattern(key)| <= k < ArrayAt(s, key) ==> IsWs(s[k])
  {
    ValueAtKey(s, key);
  }

  /** `find_array`. */
  method FindArray(s: seq<char>, key: string) returns (a: int)
    ensures a == ArrayAt(s, key)
  {
    var v := FindValue(s, key);
    if v == -1 || v == |s| || s[v] != '[' {
      return -1;
    }
    return v;
  }

  // ---------------------------------------------------------------- extract_object

  /** How a character moves the brace count. */
  function Delta(c: char): int {
    if c == '{' then 1 else if c == '}' then -1 else 0
  }

  /** Number of `{` minus number of `}` in `t`. */
  function Balance(t: seq<char>): int {
    if |t| == 0 then 0 else Balance(t[..|t| - 1]) + Delta(t[|t| - 1])
  }

  /** The brace balance of `s[b..k]` grows by one character at a time. */
  lemma BalanceStep(s: seq<char>, b: nat, k: nat)
    requires b <= k < |s|
    ensures Balance(s[b..k + 1]) == Balance(s[b..k]) + Delta(s[k])
  {
    assert s[b..k + 1][..k - b] == s[b..k];
  }

  /**
   * The brace-counting loop of `extract_object`: from `i`, with `depth` braces open,
   * the position just past the `}` that closes them, or -1 if the text ends first.
   */
  function ObjectEnd(s: seq<char>, i: nat, depth: int): (r: int)
    requires i <= |s|
    ensures r == -1 || i <= r <= |s|
    decreases |s| - i
  {
    if depth <= 0 then i
    else if i == |s| then -1
    else ObjectEnd(s, i + 1, depth + Delta(s[i]))
  }

  /**
   * Counting from the `{` at `b`, the loop stops at the first point where the braces
   * balance, and fails exactly when they never do.
   */
  lemma {:induction false} ObjectEndBalanced(s: seq<char>, b: nat, i: nat)
    requires b < i <= |s|
    requires forall k :: b < k <= i ==> Balance(s[b..k]) > 0
    ensures var r := ObjectEnd(s, i, Balance(s[b..i]));
      (r != -1 ==> i < r && Balance(s[b..r]) == 0 && forall k :: b < k < r ==> Balance(s[b..k]) > 0) &&
      (r == -1 ==> forall k :: b < k <= |s| ==> Balance(s[b..k]) > 0)
    decreases |s| - i
  {
    if i < |s| {
      BalanceStep(s, b, i);
      if Balance(s[b..i + 1]) > 0 {
        ObjectEndBalanced(s, b, i + 1);
      }
    }
  }

  /**
   * `extract_object`: after optional whitespace, the shortest text that starts with `{`
   * and balances its braces; `None` when no `{` comes first or the text ends before the
   * braces balance.
   */
  function ObjectText(s: seq<char>, start: nat): (r: Option<string>)
    requires start <= |s|
  {
    var b := SkipWhile(s, start, IsWs);
    if b == |s| || s[b] != '{' then None
    else
      var e := ObjectEnd(s, b + 1, 1);
      if e == -1 then None else Some(s[b..e])
  }

  /** The single `{` at `b` leaves one brace open. */
  lemma BalanceOpen(s: seq<char>, b: nat)
    requires b < |s| && s[b] == '{'
    ensures Balance(s[b..b + 1]) == 1
  {
    assert s[b..b + 1][..0] == [];
  }

  /**
   * There is no object exactly when the first non-blank character is not `{` or no
   * prefix from it balances its braces.
   */
  lemma ObjectTextNone(s: seq<char>, start: nat)
    requires start <= |s|
    ensures var b := SkipWhile(s, start, IsWs);
      ObjectText(s, start).None? <==>
        b == |s| || s[b] != '{' || forall k :: b < k <= |s| ==> Balance(s[b..k]) > 0
  {
    var b := SkipWhile(s, start, IsWs);
    if b < |s| && s[b] == '{' {
      BalanceOpen(s, b);
      ObjectEndBalanced(s, b, b + 1);
    }
  }

  /**
   * An extracted object is the text from the first non-blank character: it starts with
   * `{`, ends with `}`, balances its braces and has no shorter balanced prefix.
   */
  lemma ObjectTextSome(s: seq<char>, start: nat)
    requires start <= |s| && ObjectText(s, start).Some?
    ensures var b := SkipWhile(s, start, IsWs);
      var obj := ObjectText(s, start).value;
      2 <= |obj| && b + |obj| <= |s| && s[b..b + |obj|] == obj &&
      obj[0] == '{' && obj[|obj| - 1] == '}' && Balance(obj) == 0 &&
      forall k :: 0 < k < |obj| ==> Balance(obj[..k]) > 0
  {
    var b := SkipWhile(s, start, IsWs);
    BalanceOpen(s, b);
    ObjectEndBalanced(s, b, b + 1);
    var e := ObjectEnd(s, b + 1, 1);
    var obj := s[b..e];
    forall k | 0 < k < |obj|
      ensures Balance(obj[..k]) > 0
    {
      assert obj[..k] == s[b..b + k];
    }
    BalanceStep(s, b, e - 1);
  }

  /** `extract_object` (allocation of the copy is not modelled). */
  method ExtractObject(s: seq<char>, start: nat) returns (r: Option<string>)
    requires start <= |s|
    ensures r == ObjectText(s, start)
  {
    var b := Skip(s, start, IsWs);
    if b == |s| || s[b] != '{' {
      return None;
    }
    var depth := 1;
    var e := b + 1;
    while e < |s| && depth > 0
      invariant b + 1 <= e <= |s| && depth >= 0
      invariant ObjectEnd(s, e, depth) == ObjectEnd(s, b + 1, 1)
      decreases |s| - e
    {
      depth := depth + Delta(s[e]);
      e := e + 1;
    }
    if depth != 0 {
      return None;
    }
    r := Some(s[b..e]);
  }

  // ---------------------------------------------------------------- get_array_size

  /**
   * The loop of `get_array_size` from position `i`, having counted `count` objects, with
   * brace level `level` and `inObject` telling whether an object is open.
   */
  function SizeFrom(s: seq<char>, i: nat, count: nat, level: int, inObject: bool): nat
    requires i <= |s|
    decreases |s| - i
  {
    if i == |s| then count
    else
      var c := s[i];
      var inObject' := if c == '{' && level == 0 && !inObject then true
                       else if c == '}' && level - 1 == 0 && inObject then false
                       else inObject;
      var level' := level + Delta(c);
      var count' := if c == '}' && level' == 0 && inObject then count + 1 else count;
      if c == ']' && level' == 0 && !inObject' then count'
      else SizeFrom(s, i + 1, count', level', inObject')
  }

  /** `get_array_size` for the array whose `[` is at `a`. */
  function ArraySize(s: seq<char>, a: nat): nat
    requires a < |s|
  {
    SizeFrom(s, a + 1, 0, 0, false)
  }

  /** `get_array_size`. */
  method GetArraySize(s: seq<char>, a: nat) returns (count: nat)
    requires a < |s|
    ensures count == ArraySize(s, a)
  {
    count := 0;
    var level := 0;
    var inObject := false;
    var i := a + 1;
    while i < |s|
      invariant a + 1 <= i <= |s|
      invariant SizeFrom(s, i, count, level, inObject) == ArraySize(s, a)
      decreases |s| - i
    {
      var c := s[i];
      if c == '{' {
        if level == 0 && !inObject {
          inObject := true;
        }
        level := level + 1;
      } else if c == '}' {
        level := level - 1;
        if level == 0 && inObject {
          count := count + 1;
          inObject := false;
        }
      }
      if c == ']' && level == 0 && !inObject {
        return;
      }
      i := i + 1;
    }
  }

  /**
   * Inside an object, `depth` braces deep, the scan runs to the `}` that closes the
   * object and counts it there, whatever nesting and `]` the object holds.
   */
  lemma {:induction false} SizeSkipsObject(s: seq<char>, i: nat, count: nat, depth: int)
    requires i <= |s| && depth >= 1 && ObjectEnd(s, i, depth) != -1
    ensures SizeFrom(s, i, count, depth, true) == SizeFrom(s, ObjectEnd(s, i, depth), count + 1, 0, false)
    decreases |s| - i
  {
    var depth' := depth + Delta(s[i]);
    if depth' > 0 {
      SizeSkipsObject(s, i + 1, count, depth');
    }
  }

  /** One array element: an object with the given body. */
  function Element(body: string): string {
    "{" + body + "}"
  }

  /** `{body}` is one whole object: its braces first balance at its last character. */
  predicate Whole(body: string) {
    ObjectEnd(Element(body), 1, 1) == |body| + 2
  }

  /** Brace counting over a copy of `t` placed at `q` in `s` ends where it ends in `t`, shifted. */
  lemma {:induction false} ObjectEndShift(s: seq<char>, q: nat, t: seq<char>, i: nat, depth: int)
    requires q + |t| <= |s| && s[q..q + |t|] == t && i <= |t|
    requires ObjectEnd(t, i, depth) != -1
    ensures ObjectEnd(s, q + i, depth) == q + ObjectEnd(t, i, depth)
    decreases |t| - i
  {
    if depth > 0 {
      assert s[q + i] == t[i];
      ObjectEndShift(s, q, t, i + 1, depth + Delta(t[i]));
    }
  }

  /** At a whole element, brace counting from just past its `{` ends just past its `}`. */
  lemma ElementEnd(s: seq<char>, q: nat, body: string)
    requires Whole(body)
    requires q + |body| + 2 <= |s| && s[q..q + |body| + 2] == Element(body)
    ensures s[q] == '{' && ObjectEnd(s, q + 1, 1) == q + |body| + 2
  {
    assert s[q] == Element(body)[0];
    ObjectEndShift(s, q, Element(body), 1, 1);
  }

  /** Brace counting runs over a brace-free stretch unchanged. */
  lemma {:induction false} ObjectEndSkipsBody(s: seq<char>, i: nat, j: nat, depth: int)
    requires i <= j <= |s| && depth > 0
    requires forall k :: i <= k < j ==> s[k] != '{' && s[k] != '}'
    ensures ObjectEnd(s, i, depth) == ObjectEnd(s, j, depth)
    decreases j - i
  {
    if i < j {
      ObjectEndSkipsBody(s, i + 1, j, depth);
    }
  }

  /** A body without braces makes a whole element. */
  lemma BraceFreeWhole(body: string)
    requires forall k :: 0 <= k < |body| ==> body[k] != '{' && body[k] != '}'
    ensures Whole(body)
  {
    var t := Element(body);
    forall k | 1 <= k < |body| + 1
      ensures t[k] != '{' && t[k] != '}'
    {
      assert t[k] == body[k - 1];
    }
    ObjectEndSkipsBody(t, 1, |body| + 1, 1);
    assert t[|body| + 1] == '}';
  }

  /** Elements separated by commas, as index.json writes its arrays. */
  function Elements(bodies: seq<string>): string
    decreases |bodies|
  {
    if |bodies| == 0 then ""
    else if |bodies| == 1 then Element(bodies[0])
    else Element(bodies[0]) + "," + Elements(bodies[1..])
  }

  /** Every body makes a whole element. */
  predicate AllWhole(bodies: seq<string>) {
    forall n :: 0 <= n < |bodies| ==> Whole(bodies[n])
  }

  /** A whole element is counted as one object. */
  lemma SizeCountsElement(s: seq<char>, i: nat, body: string, count: nat)
    requires Whole(body)
    requires i + |body| + 2 <= |s| && s[i..i + |body| + 2] == Element(body)
    ensures SizeFrom(s, i, count, 0, false) == SizeFrom(s, i + |body| + 2, count + 1, 0, false)
  {
    ElementEnd(s, i, body);
    SizeSkipsObject(s, i + 1, count, 1);
  }

  /**
   * Counting the objects of an array: the elements written by `Elements` from `i` on,
   * followed by `]`, are counted one each.
   */
  lemma {:induction false} SizeCountsElements(s: seq<char>, i: nat, bodies: seq<string>, count: nat)
    requires AllWhole(bodies)
    requires i + |Elements(bodies)| < |s| && s[i..i + |Elements(bodies)|] == Elements(bodies)
    requires s[i + |Elements(bodies)|] == ']'
    ensures SizeFrom(s, i, count, 0, false) == count + |bodies|
    decreases |bodies|
  {
    var t := Elements(bodies);
    if |bodies| == 0 {
    } else {
      var first := Element(bodies[0]);
      assert s[i..i + |first|] == first by {
        assert t[..|first|] == first;
        assert s[i..i + |first|] == t[..|first|];
      }
      SizeCountsElement(s, i, bodies[0], count);
      var j := i + |first|;
      if |bodies| == 1 {
        assert s[j] == ']';
      } else {
        var rest := Elements(bodies[1..]);
        assert t == first + "," + rest;
        assert s[j] == ',' by {
          assert s[j] == t[|first|];
        }
        assert s[j + 1..j + 1 + |rest|] == rest by {
          assert s[j + 1..j + 1 + |rest|] == t[|first| + 1..];
        }
        assert AllWhole(bodies[1..]) by {
          forall n | 0 <= n < |bodies| - 1
            ensures Whole(bodies[1..][n])
          {
            assert bodies[1..][n] == bodies[n + 1];
          }
        }
        SizeCountsElements(s, j + 1, bodies[1..], count + 1);
      }
    }
  }

  /** `get_array_size` of `[` followed by `Elements(bodies)` and `]` is `|bodies|`. */
  lemma ArraySizeOfElements(s: seq<char>, a: nat, bodies: seq<string>)
    requires AllWhole(bodies)
    requires a + |Elements(bodies)| + 1 < |s| && s[a] == '['
    requires s[a + 1..a + 1 + |Elements(bodies)|] == Elements(bodies)
    requires s[a + 1 + |Elements(bodies)|] == ']'
    ensures ArraySize(s, a) == |bodies|
  {
    SizeCountsElements(s, a + 1, bodies, 0);
  }
}
