/**
 * The loop both index.json parsers run over an array: for each of the `n` slots that
 * `get_array_size` counted, find the next `{`, extract the object there, store what is
 * parsed from it, and move the cursor on. Slots the loop never writes keep whatever
 * `malloc` left there (`Unset`).
 */
module ArrayWalk {
  import opened Esp
  import opened JsonText

  /** An array cell: written by the loop, or left as allocated. */
  datatype Slot<T> = Unset | Set(value: T)

  predicate NotOpen(c: char) {
    c != '{'
  }

  predicate NotClose(c: char) {
    c != '}'
  }

  /** The next `{` at or after `pos`, or the end of the text. */
  function NextBrace(s: seq<char>, pos: nat): nat
    requires pos <= |s|
  {
    SkipWhile(s, pos, NotOpen)
  }

  /** Just past the first `}` at or after `p` (or the end of the text). */
  function PastFirstClose(s: seq<char>, p: nat): (r: nat)
    requires p <= |s|
    ensures p <= r <= |s|
  {
    var e := SkipWhile(s, p, NotClose);
    if e < |s| then e + 1 else e
  }

  /** Just past the `}` that balances the `{` at `p` (or the end of the text). */
  function PastObject(s: seq<char>, p: nat): (r: nat)
    requires p < |s|
    ensures p < r <= |s|
  {
    var e := ObjectEnd(s, p + 1, 1);
    if e == -1 then |s| else e
  }

  /** How a loop moves its cursor from the `{` it just handled. */
  datatype Advance = FirstClose | WholeObject | Stay

  function Advanced(s: seq<char>, p: nat, how: Advance): (r: nat)
    requires p < |s|
    ensures p <= r <= |s|
  {
    match how
    case FirstClose => PastFirstClose(s, p)
    case WholeObject => PastObject(s, p)
    case Stay => p
  }

  /** What one round of the loop does: stop at the end of the text, or go on from `pos`. */
  datatype Round<T> = End | Next(item: Option<T>, pos: nat)

  /**
   * One round from cursor `pos`: find the next `{`, extract the object there and parse
   * it; `onOk` says how the cursor moves after an object was extracted, `onBad` after
   * extraction failed.
   */
  function RoundAt<T>(s: seq<char>, pos: nat, parse: string -> T, onOk: Advance, onBad: Advance): (r: Round<T>)
    requires pos <= |s|
    ensures r.Next? ==> r.pos <= |s|
  {
    var p := NextBrace(s, pos);
    if p == |s| then End
    else
      match ObjectText(s, p)
      case None => Next(None, Advanced(s, p, onBad))
      case Some(obj) => Next(Some(parse(obj)), Advanced(s, p, onOk))
  }

  /** The array loop from cursor `pos` at slot `i`, for the slots still to fill. */
  function Fill<T>(s: seq<char>, pos: nat, i: nat, slots: seq<Slot<T>>, parse: string -> T,
                   onOk: Advance, onBad: Advance): (r: seq<Slot<T>>)
    requires pos <= |s| && i <= |slots|
    ensures |r| == |slots| && r[..i] == slots[..i]
    decreases |slots| - i
  {
    if i == |slots| then slots
    else
      match RoundAt(s, pos, parse, onOk, onBad)
      case End => slots
      case Next(item, next) =>
        var slots' := if item.Some? then slots[i := Set(item.value)] else slots;
        Fill(s, next, i + 1, slots', parse, onOk, onBad)
  }

  /** The cursor moves of the loops: a scan to the first `}` or a brace count. */
  method AdvanceCursor(s: seq<char>, p: nat, how: Advance) returns (r: nat)
    requires p < |s|
    ensures r == Advanced(s, p, how)
  {
    match how {
      case Stay =>
        r := p;
      case FirstClose =>
        r := Skip(s, p, NotClose);
        if r < |s| {
          r := r + 1;
        }
      case WholeObject =>
        var depth := 1;
        r := p + 1;
        while r < |s| && depth > 0
          invariant p + 1 <= r <= |s| && depth >= 0
          invariant ObjectEnd(s, r, depth) == ObjectEnd(s, p + 1, 1)
          decreases |s| - r
        {
          depth := depth + Delta(s[r]);
          r := r + 1;
        }
    }
  }

  /** One round of the loop body. */
  method ScanRound<T>(s: seq<char>, pos: nat, parse: string -> T, onOk: Advance, onBad: Advance)
    returns (r: Round<T>)
    requires pos <= |s|
    ensures r == RoundAt(s, pos, parse, onOk, onBad)
  {
    var p := Skip(s, pos, NotOpen);
    if p == |s| {
      return End;
    }
    var obj := ExtractObject(s, p);
    var next;
    if obj.Some? {
      next := AdvanceCursor(s, p, onOk);
      r := Next(Some(parse(obj.value)), next);
    } else {
      next := AdvanceCursor(s, p, onBad);
      r := Next(None, next);
    }
  }

  /**
   * The array loop over the array whose `[` is at `a`, writing the cells of `slots`
   * in place.
   */
  method FillSlots<T>(s: seq<char>, a: nat, slots: array<Slot<T>>, parse: string -> T,
                      onOk: Advance, onBad: Advance)
    requires a < |s|
    modifies slots
    ensures slots[..] == Fill(s, a + 1, 0, old(slots[..]), parse, onOk, onBad)
  {
    var pos: nat := a + 1;
    var i := 0;
    while i < slots.Length
      invariant 0 <= i <= slots.Length && pos <= |s|
      invariant Fill(s, pos, i, slots[..], parse, onOk, onBad) == Fill(s, a + 1, 0, old(slots[..]), parse, onOk, onBad)
    {
      var round := ScanRound(s, pos, parse, onOk, onBad);
      if round.End? {
        break;
      }
      if round.item.Some? {
        slots[i] := Set(round.item.value);
      }
      pos := round.pos;
      i := i + 1;
    }
  }

  // ------------------------------------------------------------ arrays of flat objects

  /** The entries an array of flat objects should give, in order. */
  function Parsed<T>(bodies: seq<string>, parse: string -> T): (r: seq<Slot<T>>)
    ensures |r| == |bodies|
  {
    if |bodies| == 0 then [] else [Set(parse(Element(bodies[0])))] + Parsed(bodies[1..], parse)
  }

  /** The `n`-th parsed entry is the parse of the `n`-th element. */
  lemma {:induction false} ParsedAt<T>(bodies: seq<string>, parse: string -> T, n: nat)
    requires n < |bodies|
    ensures Parsed(bodies, parse)[n] == Set(parse(Element(bodies[n])))
    decreases n
  {
    if n > 0 {
      ParsedAt(bodies[1..], parse, n - 1);
    }
  }

  /** No body holds a brace. */
  predicate BraceFree(bodies: seq<string>) {
    forall n, k :: 0 <= n < |bodies| && 0 <= k < |bodies[n]| ==> bodies[n][k] != '{' && bodies[n][k] != '}'
  }

  /**
   * The cursor move `how` steps over each element whole: brace counting does so for any
   * whole object, the scan to the first `}` only for objects without nested braces.
   */
  predicate Walkable(bodies: seq<string>, how: Advance) {
    AllWhole(bodies) && (how == WholeObject || (how == FirstClose && BraceFree(bodies)))
  }

  /** Objects without nested braces can be walked either way. */
  lemma BraceFreeWalkable(bodies: seq<string>, how: Advance)
    requires BraceFree(bodies) && how != Stay
    ensures Walkable(bodies, how)
  {
    forall n | 0 <= n < |bodies|
      ensures Whole(bodies[n])
    {
      BraceFreeWhole(bodies[n]);
    }
  }

  /** At the `{` of a whole element, the extracted object is the element and brace counting lands just past it. */
  lemma ElementAt(s: seq<char>, p: nat, body: string)
    requires Whole(body)
    requires p + |body| + 2 <= |s| && s[p..p + |body| + 2] == Element(body)
    ensures ObjectText(s, p) == Some(Element(body))
    ensures PastObject(s, p) == p + |body| + 2
  {
    ElementEnd(s, p, body);
    SkipWhileRun(s, p, p, IsWs);
  }

  /** The scan to the first `}` lands just past an element without nested braces. */
  lemma ElementFirstClose(s: seq<char>, p: nat, body: string)
    requires forall k :: 0 <= k < |body| ==> body[k] != '{' && body[k] != '}'
    requires p + |body| + 2 <= |s| && s[p..p + |body| + 2] == Element(body)
    ensures PastFirstClose(s, p) == p + |body| + 2
  {
    var j := p + 1 + |body|;
    assert s[p] == Element(body)[0];
    assert s[j] == Element(body)[|body| + 1];
    forall k | p <= k < j
      ensures s[k] != '}'
    {
      assert s[k] == Element(body)[k - p];
    }
    SkipWhileRun(s, p, j, NotClose);
  }

  /** Reached over text without `{`, a walkable element is one round that parses it and moves past it. */
  lemma RoundAtElement<T>(s: seq<char>, pos: nat, q: nat, body: string, parse: string -> T, onOk: Advance, onBad: Advance)
    requires Walkable([body], onOk)
    requires q + |body| + 2 <= |s| && s[q..q + |body| + 2] == Element(body)
    requires pos <= q && forall k :: pos <= k < q ==> s[k] != '{'
    ensures RoundAt(s, pos, parse, onOk, onBad) == Next(Some(parse(Element(body))), q + |body| + 2)
  {
    assert s[q] == Element(body)[0];
    assert Whole([body][0]);
    SkipWhileRun(s, pos, q, NotOpen);
    ElementAt(s, q, body);
    if onOk == FirstClose {
      assert forall k :: 0 <= k < |body| ==> [body][0][k] != '{' && [body][0][k] != '}';
      ElementFirstClose(s, q, body);
    }
  }

  /** A round that parses an object fills the current slot and moves on. */
  lemma FillStep<T>(s: seq<char>, pos: nat, i: nat, slots: seq<Slot<T>>, parse: string -> T,
                    onOk: Advance, onBad: Advance, x: T, next: nat)
    requires pos <= |s| && i < |slots|
    requires RoundAt(s, pos, parse, onOk, onBad) == Next(Some(x), next)
    ensures Fill(s, pos, i, slots, parse, onOk, onBad) == Fill(s, next, i + 1, slots[i := Set(x)], parse, onOk, onBad)
  {
  }

  /**
   * An array written as `Elements(bodies)` and closed by `]`, reached from `pos` over
   * text without `{`, fills the remaining slots with the parsed elements in order, as
   * long as the loop advances its cursor after each object.
   */
  lemma {:induction false} FillElements<T>(s: seq<char>, pos: nat, q: nat, i: nat, slots: seq<Slot<T>>,
                                           bodies: seq<string>, parse: string -> T, onOk: Advance, onBad: Advance)
    requires Walkable(bodies, onOk)
    requires q + |Elements(bodies)| < |s| && s[q..q + |Elements(bodies)|] == Elements(bodies)
    requires s[q + |Elements(bodies)|] == ']'
    requires pos <= q && forall k :: pos <= k < q ==> s[k] != '{'
    requires i + |bodies| == |slots|
    ensures Fill(s, pos, i, slots, parse, onOk, onBad) == slots[..i] + Parsed(bodies, parse)
    decreases |bodies|
  {
    hide Fill, Parsed, Elements, RoundAt, ObjectText;
    if |bodies| == 0 {
      FillDone(s, pos, slots, parse, onOk, onBad);
      assert slots[..i] == slots;
    } else {
      var next := q + |Element(bodies[0])|;
      var slots' := slots[i := Set(parse(Element(bodies[0])))];
      if |bodies| > 1 {
        ElementsTail(s, q, bodies, onOk);
        FillElements(s, next, next + 1, i + 1, slots', bodies[1..], parse, onOk, onBad);
      } else {
        ElementsHead(s, q, bodies);
        FillDone(s, next, slots', parse, onOk, onBad);
        assert slots'[..i + 1] == slots';
      }
      FillFirst(s, pos, q, i, slots, bodies, parse, onOk, onBad);
    }
  }

  /** One round over the first element, followed by the rest of the slots filled as expected. */
  lemma FillFirst<T>(s: seq<char>, pos: nat, q: nat, i: nat, slots: seq<Slot<T>>,
                     bodies: seq<string>, parse: string -> T, onOk: Advance, onBad: Advance)
    requires Walkable(bodies, onOk) && |bodies| > 0
    requires q + |Elements(bodies)| <= |s| && s[q..q + |Elements(bodies)|] == Elements(bodies)
    requires pos <= q && forall k :: pos <= k < q ==> s[k] != '{'
    requires i + |bodies| == |slots|
    requires var next := q + |Element(bodies[0])|;
      var slots' := slots[i := Set(parse(Element(bodies[0])))];
      Fill(s, next, i + 1, slots', parse, onOk, onBad) == slots'[..i + 1] + Parsed(bodies[1..], parse)
    ensures Fill(s, pos, i, slots, parse, onOk, onBad) == slots[..i] + Parsed(bodies, parse)
  {
    hide Fill, Parsed, Elements, RoundAt;
    var x := parse(Element(bodies[0]));
    var next := q + |Element(bodies[0])|;
    ElementsHead(s, q, bodies);
    RoundAtElement(s, pos, q, bodies[0], parse, onOk, onBad);
    FillStep(s, pos, i, slots, parse, onOk, onBad, x, next);
    ParsedCons(bodies, parse);
    SetThenTake(slots, i, Set(x), Parsed(bodies[1..], parse));
  }

  /** Setting slot `i` and keeping the first `i + 1` slots appends the new value to the old prefix. */
  lemma SetThenTake<T>(slots: seq<Slot<T>>, i: nat, v: Slot<T>, rest: seq<Slot<T>>)
    requires i < |slots|
    ensures slots[i := v][..i + 1] + rest == slots[..i] + ([v] + rest)
  {
    assert slots[i := v][..i + 1] == slots[..i] + [v];
  }

  /** With every slot passed, the loop is over. */
  lemma FillDone<T>(s: seq<char>, pos: nat, slots: seq<Slot<T>>, parse: string -> T, onOk: Advance, onBad: Advance)
    requires pos <= |s|
    ensures Fill(s, pos, |slots|, slots, parse, onOk, onBad) == slots
  {
  }

  /** The first body's entry comes first. */
  lemma ParsedCons<T>(bodies: seq<string>, parse: string -> T)
    requires |bodies| > 0
    ensures Parsed(bodies, parse) == [Set(parse(Element(bodies[0])))] + Parsed(bodies[1..], parse)
    ensures |bodies| == 1 ==> Parsed(bodies[1..], parse) == []
  {
  }

  /** The elements start with the first one. */
  lemma ElementsHead(s: seq<char>, q: nat, bodies: seq<string>)
    requires |bodies| > 0
    requires q + |Elements(bodies)| <= |s| && s[q..q + |Elements(bodies)|] == Elements(bodies)
    ensures var first := Element(bodies[0]);
      q + |first| <= |s| && s[q..q + |first|] == first
  {
    var t := Elements(bodies);
    var first := Element(bodies[0]);
    assert t[..|first|] == first;
    assert s[q..q + |first|] == t[..|first|];
  }

  /** After the first element and its comma come the elements of the other bodies. */
  lemma ElementsTail(s: seq<char>, q: nat, bodies: seq<string>, how: Advance)
    requires |bodies| > 1
    requires q + |Elements(bodies)| < |s| && s[q..q + |Elements(bodies)|] == Elements(bodies)
    requires s[q + |Elements(bodies)|] == ']'
    ensures var next := q + |Element(bodies[0])|;
      var rest := Elements(bodies[1..]);
      s[next] == ',' && next + 1 + |rest| < |s| && s[next + 1..next + 1 + |rest|] == rest &&
      s[next + 1 + |rest|] == ']'
    ensures Walkable(bodies, how) ==> Walkable(bodies[1..], how)
  {
    var t := Elements(bodies);
    var first := Element(bodies[0]);
    var rest := Elements(bodies[1..]);
    var next := q + |first|;
    assert t == first + "," + rest;
    assert s[next] == t[|first|];
    assert s[next + 1..next + 1 + |rest|] == t[|first| + 1..];
    forall n | 0 <= n < |bodies| - 1
      ensures bodies[1..][n] == bodies[n + 1]
    {
    }
  }
}
