/**
 * The flat records index.json is written with: `{"key":"value",...}` with keys made of
 * letters and values free of quotes and braces. For such a record the string helper
 * finds exactly the value of the first field with the key asked for, so extraction
 * undoes the writing.
 */
module JsonRecord {
  import opened Esp
  import opened Search
  import opened JsonText

  datatype Field = Field(key: string, value: string)

  /** A key as index.json writes them: a non-empty run of ASCII letters. */
  predicate Word(k: string) {
    |k| > 0 && forall i :: 0 <= i < |k| ==> ('a' <= k[i] <= 'z' || 'A' <= k[i] <= 'Z')
  }

  /** A value the helpers can carry: no quote (there is no escape) and no brace. */
  predicate Plain(v: string) {
    forall i :: 0 <= i < |v| ==> v[i] != '"' && v[i] != '{' && v[i] != '}'
  }

  predicate WellFormed(fields: seq<Field>) {
    forall n :: 0 <= n < |fields| ==> Word(fields[n].key) && Plain(fields[n].value)
  }

  /** `"key":"value"`. */
  function FieldText(f: Field): string {
    "\"" + f.key + "\":\"" + f.value + "\""
  }

  /** The fields separated by commas. */
  function FieldsText(fields: seq<Field>): string
    decreases |fields|
  {
    if |fields| == 0 then ""
    else if |fields| == 1 then FieldText(fields[0])
    else FieldText(fields[0]) + "," + FieldsText(fields[1..])
  }

  /** The record as one object. */
  function Record(fields: seq<Field>): string {
    Element(FieldsText(fields))
  }

  /** The value of the first field with key `key`. */
  function Lookup(fields: seq<Field>, key: string): Option<string>
    decreases |fields|
  {
    if |fields| == 0 then None
    else if fields[0].key == key then Some(fields[0].value)
    else Lookup(fields[1..], key)
  }

  /** Where each part of a field lies in its text. */
  lemma FieldLayout(f: Field)
    ensures var t, k, v := FieldText(f), |f.key|, |f.value|;
      |t| == k + v + 5 && t[0] == '"' && t[k + 1] == '"' && t[k + 2] == ':' &&
      t[k + 3] == '"' && t[k + v + 4] == '"' &&
      (forall i :: 0 <= i < k ==> t[1 + i] == f.key[i]) &&
      (forall i :: 0 <= i < v ==> t[k + 4 + i] == f.value[i]) &&
      t[..k + 3] == KeyPattern(f.key) && t[k + 4..k + 4 + v] == f.value
  {
    var t, k, v := FieldText(f), |f.key|, |f.value|;
    assert t == KeyPattern(f.key) + "\"" + f.value + "\"";
  }

  /** Where each part of `"key":` lies. */
  lemma KeyLayout(key: string)
    ensures var p := KeyPattern(key);
      |p| == |key| + 3 && p[0] == '"' && p[|key| + 1] == '"' && p[|key| + 2] == ':' &&
      forall i :: 0 <= i < |key| ==> p[1 + i] == key[i]
  {
  }

  /** No occurrence of `"key":` starts at position `q` of a field whose key is not `key`. */
  lemma NoKeyAt(s: seq<char>, o: nat, f: Field, key: string, q: nat)
    requires Word(f.key) && Plain(f.value) && Word(key) && f.key != key
    requires o + |FieldText(f)| < |s| && s[o..o + |FieldText(f)|] == FieldText(f)
    requires s[o + |FieldText(f)|] == ',' || s[o + |FieldText(f)|] == '}'
    requires o <= q <= o + |FieldText(f)|
    ensures !OccursAt(s, KeyPattern(key), q)
  {
    if q <= o + |f.key| + 2 {
      NoKeyAtKey(s, o, f, key, q);
    } else {
      NoKeyAtValue(s, o, f, key, q);
    }
  }

  /** No occurrence of `"key":` starts in the key part of a field whose key is not `key`. */
  lemma NoKeyAtKey(s: seq<char>, o: nat, f: Field, key: string, q: nat)
    requires Word(f.key) && Plain(f.value) && Word(key) && f.key != key
    requires o + |FieldText(f)| < |s| && s[o..o + |FieldText(f)|] == FieldText(f)
    requires s[o + |FieldText(f)|] == ',' || s[o + |FieldText(f)|] == '}'
    requires o <= q <= o + |f.key| + 2
    ensures !OccursAt(s, KeyPattern(key), q)
  {
    FieldLayout(f);
    KeyLayout(key);
    hide FieldText, KeyPattern;
    var t, k, v := FieldText(f), |f.key|, |f.value|;
    var p := KeyPattern(key);
    assert forall i :: 0 <= i < |t| ==> s[o + i] == t[i];
    if q == o {
      if |key| < k {
        assert s[q + |key| + 1] == t[1 + |key|] == f.key[|key|];
        Mismatch(s, p, q, |key| + 1);
      } else if |key| > k {
        assert s[q + k + 1] == t[k + 1] == '"';
        assert p[k + 1] == key[k];
        Mismatch(s, p, q, k + 1);
      } else {
        var i :| 0 <= i < k && key[i] != f.key[i];
        assert s[q + i + 1] == t[1 + i] == f.key[i];
        assert p[i + 1] == key[i];
        Mismatch(s, p, q, i + 1);
      }
    } else if q <= o + k {
      assert s[q] == t[1 + (q - o - 1)] == f.key[q - o - 1];
      Mismatch(s, p, q, 0);
    } else if q == o + k + 1 {
      assert s[q + 1] == t[k + 2] == ':';
      assert p[1 + 0] == key[0];
      Mismatch(s, p, q, 1);
    } else if q == o + k + 2 {
      assert s[q] == t[k + 2] == ':';
      Mismatch(s, p, q, 0);
    }
  }

  /** No occurrence of `"key":` starts in the value part or separator of a field whose key is not `key`. */
  lemma NoKeyAtValue(s: seq<char>, o: nat, f: Field, key: string, q: nat)
    requires Word(f.key) && Plain(f.value) && Word(key)
    requires o + |FieldText(f)| < |s| && s[o..o + |FieldText(f)|] == FieldText(f)
    requires s[o + |FieldText(f)|] == ',' || s[o + |FieldText(f)|] == '}'
    requires o + |f.key| + 3 <= q <= o + |FieldText(f)|
    ensures !OccursAt(s, KeyPattern(key), q)
  {
    FieldLayout(f);
    KeyLayout(key);
    hide FieldText, KeyPattern;
    var t, k, v := FieldText(f), |f.key|, |f.value|;
    var p := KeyPattern(key);
    assert forall i :: 0 <= i < |t| ==> s[o + i] == t[i];
    if q == o + k + 3 {
      if |key| < v {
        assert s[q + |key| + 1] == t[k + 4 + |key|] == f.value[|key|];
        Mismatch(s, p, q, |key| + 1);
      } else if |key| > v {
        assert s[q + v + 1] == t[k + v + 4] == '"';
        assert p[v + 1] == key[v];
        Mismatch(s, p, q, v + 1);
      } else {
        assert q + |key| + 2 == o + |t|;
        Mismatch(s, p, q, |key| + 2);
      }
    } else if q < o + k + v + 4 {
      assert s[q] == t[k + 4 + (q - o - k - 4)] == f.value[q - o - k - 4];
      Mismatch(s, p, q, 0);
    } else if q == o + k + v + 4 {
      assert q + 1 == o + |t|;
      assert p[1 + 0] == key[0];
      Mismatch(s, p, q, 1);
    } else {
      Mismatch(s, p, q, 0);
    }
  }

  /** A pattern position where the text differs, or has ended, rules out an occurrence. */
  lemma Mismatch(s: seq<char>, pat: seq<char>, q: nat, j: nat)
    requires j < |pat| && (q + j < |s| ==> s[q + j] != pat[j])
    ensures !OccursAt(s, pat, q)
  {
    if q + |pat| <= |s| {
      assert s[q..q + |pat|][j] == s[q + j];
    }
  }

  /**
   * A field whose key is not `key`, followed by `,` or `}`, holds no occurrence of
   * `"key":`, not even one reaching into its separator.
   */
  lemma NoKeyInField(s: seq<char>, o: nat, f: Field, key: string)
    requires Word(f.key) && Plain(f.value) && Word(key) && f.key != key
    requires o + |FieldText(f)| < |s| && s[o..o + |FieldText(f)|] == FieldText(f)
    requires s[o + |FieldText(f)|] == ',' || s[o + |FieldText(f)|] == '}'
    ensures forall q :: o <= q <= o + |FieldText(f)| ==> !OccursAt(s, KeyPattern(key), q)
  {
    forall q | o <= q <= o + |FieldText(f)|
      ensures !OccursAt(s, KeyPattern(key), q)
    {
      NoKeyAt(s, o, f, key, q);
    }
  }

  /** Past the `n` characters of a key at `p`, the value `v` stands between two quotes. */
  predicate QuotedAfter(s: seq<char>, p: int, n: nat, v: string) {
    0 <= p && p + n + |v| + 1 < |s| && s[p + n] == '"' && s[p + n + 1..p + n + 1 + |v|] == v &&
    s[p + n + 1 + |v|] == '"'
  }

  /** A field with key `key` is an occurrence of `"key":` followed by its quoted value. */
  lemma KeyInField(s: seq<char>, o: nat, f: Field)
    requires o + |FieldText(f)| <= |s| && s[o..o + |FieldText(f)|] == FieldText(f)
    ensures OccursAt(s, KeyPattern(f.key), o) && QuotedAfter(s, o, |KeyPattern(f.key)|, f.value)
  {
    FieldLayout(f);
    KeyLayout(f.key);
    hide FieldText, KeyPattern;
    var t, k, v := FieldText(f), |f.key|, |f.value|;
    assert s[o..o + k + 3] == t[..k + 3];
    assert s[o + k + 4..o + k + 4 + v] == t[k + 4..k + 4 + v];
    assert s[o + k + 3] == t[k + 3];
    assert s[o + k + v + 4] == t[k + v + 4];
  }

  /** Skipping a stretch without occurrences does not change the leftmost occurrence. */
  lemma IndexOfSkip<T>(s: seq<T>, pat: seq<T>, from: nat, mid: nat)
    requires from <= mid <= |s|
    requires forall q :: from <= q < mid ==> !OccursAt(s, pat, q)
    ensures IndexOf(s, pat, from, |s|) == IndexOf(s, pat, mid, |s|)
  {
    IndexOfSound(s, pat, from, |s|);
    IndexOfSound(s, pat, mid, |s|);
    var r := IndexOf(s, pat, mid, |s|);
    if r == -1 {
      IndexOfNone(s, pat, from, |s|);
    } else {
      IndexOfIs(s, pat, from, |s|, r);
    }
  }

  /** The text of fields starts with the first field, then a comma and the others. */
  lemma FieldsCons(fields: seq<Field>)
    requires |fields| > 0
    ensures |fields| == 1 ==> FieldsText(fields) == FieldText(fields[0])
    ensures |fields| > 1 ==> FieldsText(fields) == FieldText(fields[0]) + "," + FieldsText(fields[1..])
    ensures WellFormed(fields) ==> WellFormed(fields[1..])
  {
    assert forall n :: 0 <= n < |fields| - 1 ==> fields[1..][n] == fields[n + 1];
  }

  /** Text laid out as `a + "," + b` at `o`: `a` sits at `o`, the comma after it, then `b`. */
  lemma SplitAt(s: seq<char>, o: nat, a: string, b: string)
    requires o + |a| + 1 + |b| <= |s| && s[o..o + |a| + 1 + |b|] == a + "," + b
    ensures s[o..o + |a|] == a && s[o + |a|] == ',' && s[o + |a| + 1..o + |a| + 1 + |b|] == b
  {
    var t := a + "," + b;
    assert t[..|a|] == a && t[|a|] == ',' && t[|a| + 1..] == b;
    assert s[o..o + |a|] == t[..|a|];
    assert s[o + |a| + 1..o + |a| + 1 + |b|] == t[|a| + 1..];
  }

  /**
   * Searching the fields placed at `o` and closed by the record's final `}`: the
   * leftmost `"key":` is the first field with that key, and there is none when no
   * field has it.
   */
  lemma {:induction false} SearchFields(s: seq<char>, o: nat, fields: seq<Field>, key: string)
    requires WellFormed(fields) && Word(key)
    requires o + |FieldsText(fields)| + 1 == |s| && s[o..o + |FieldsText(fields)|] == FieldsText(fields)
    requires s[o + |FieldsText(fields)|] == '}'
    ensures var p, r := IndexOf(s, KeyPattern(key), o, |s|), Lookup(fields, key);
      (r.None? ==> p == -1) && (r.Some? ==> QuotedAfter(s, p, |KeyPattern(key)|, r.value))
    decreases |fields|
  {
    var pat := KeyPattern(key);
    if |fields| == 0 {
      IndexOfNone(s, pat, o, |s|);
    } else {
      FieldsCons(fields);
      hide FieldsText, FieldText, KeyPattern, IndexOf, QuotedAfter;
      var f := fields[0];
      var ft := FieldText(f);
      var mid := o + |ft| + 1;
      if |fields| > 1 {
        SplitAt(s, o, ft, FieldsText(fields[1..]));
      }
      if f.key == key {
        KeyInField(s, o, f);
        IndexOfIs(s, pat, o, |s|, o);
      } else if |fields| == 1 {
        NoKeyInField(s, o, f, key);
        IndexOfSkip(s, pat, o, mid);
        IndexOfNone(s, pat, mid, |s|);
      } else {
        NoKeyInField(s, o, f, key);
        IndexOfSkip(s, pat, o, mid);
        SearchFields(s, mid, fields[1..], key);
      }
    }
  }

  /** A leftmost key followed directly by a quoted value without quotes gives that value. */
  lemma StringValueQuoted(s: seq<char>, key: string, v: string)
    requires var p := IndexOf(s, KeyPattern(key), 0, |s|); QuotedAfter(s, p, |KeyPattern(key)|, v)
    requires forall i :: 0 <= i < |v| ==> v[i] != '"'
    ensures StringValue(s, key) == Some(v)
  {
    var pat := KeyPattern(key);
    var b := IndexOf(s, pat, 0, |s|) + |pat|;
    assert ValueAt(s, key) == b by {
      SkipWhileRun(s, b, b, IsWs);
    }
    var e := b + 1 + |v|;
    assert IndexOf(s, ['"'], b + 1, |s|) == e by {
      forall q | b + 1 <= q < e
        ensures !OccursAt(s, ['"'], q)
      {
        assert s[q] == s[b + 1..e][q - b - 1] == v[q - b - 1];
        Mismatch(s, ['"'], q, 0);
      }
      assert OccursAt(s, ['"'], e) by {
        assert s[e..e + 1] == [s[e]];
      }
      IndexOfIs(s, ['"'], b + 1, |s|, e);
    }
    hide ValueAt, IndexOf;
    assert s[b + 1..e] == v;
  }

  /** `extract_string` on a written record gives back the first value stored under the key. */
  lemma RecordStringValue(fields: seq<Field>, key: string)
    requires WellFormed(fields) && Word(key)
    ensures StringValue(Record(fields), key) == Lookup(fields, key)
  {
    var s := Record(fields);
    var pat := KeyPattern(key);
    assert s[1..1 + |FieldsText(fields)|] == FieldsText(fields);
    assert s[1 + |FieldsText(fields)|] == '}';
    assert !OccursAt(s, pat, 0) by {
      assert s[0] == '{';
    }
    hide FieldsText, Record, KeyPattern, QuotedAfter;
    IndexOfSkip(s, pat, 0, 1);
    SearchFields(s, 1, fields, key);
    if Lookup(fields, key).Some? {
      LookupWellFormed(fields, key);
      StringValueQuoted(s, key, Lookup(fields, key).value);
    }
  }

  /** A key no field has does not occur in the record at all. */
  lemma RecordKeyAbsent(fields: seq<Field>, key: string)
    requires WellFormed(fields) && Word(key) && Lookup(fields, key).None?
    ensures ValueAt(Record(fields), key) == -1
  {
    var s := Record(fields);
    var pat := KeyPattern(key);
    assert s[1..1 + |FieldsText(fields)|] == FieldsText(fields);
    assert s[1 + |FieldsText(fields)|] == '}';
    assert !OccursAt(s, pat, 0) by {
      assert s[0] == '{';
    }
    hide FieldsText, Record, KeyPattern;
    IndexOfSkip(s, pat, 0, 1);
    SearchFields(s, 1, fields, key);
  }

  /** A value found in well-formed fields is plain. */
  lemma {:induction false} LookupWellFormed(fields: seq<Field>, key: string)
    requires WellFormed(fields) && Lookup(fields, key).Some?
    ensures Plain(Lookup(fields, key).value)
    decreases |fields|
  {
    if fields[0].key != key {
      FieldsCons(fields);
      LookupWellFormed(fields[1..], key);
    }
  }

  /** A record of well-formed fields holds no brace between its own two. */
  lemma {:induction false} RecordBraceFree(fields: seq<Field>)
    requires WellFormed(fields)
    ensures forall k :: 0 <= k < |FieldsText(fields)| ==>
      FieldsText(fields)[k] != '{' && FieldsText(fields)[k] != '}'
    decreases |fields|
  {
    if |fields| > 0 {
      var f := fields[0];
      FieldLayout(f);
      var ft := FieldText(f);
      assert forall k :: 0 <= k < |ft| ==> ft[k] != '{' && ft[k] != '}' by {
        forall k | 0 <= k < |ft|
          ensures ft[k] != '{' && ft[k] != '}'
        {
          if 1 <= k <= |f.key| {
            assert ft[k] == f.key[k - 1];
          } else if |f.key| + 4 <= k < |f.key| + 4 + |f.value| {
            assert ft[k] == f.value[k - |f.key| - 4];
          }
        }
      }
      if |fields| > 1 {
        assert WellFormed(fields[1..]) by {
          forall n | 0 <= n < |fields| - 1
            ensures fields[1..][n] == fields[n + 1]
          {
          }
        }
        RecordBraceFree(fields[1..]);
        var t := FieldsText(fields);
        var rest := FieldsText(fields[1..]);
        assert t == ft + "," + rest;
        forall k | 0 <= k < |t|
          ensures t[k] != '{' && t[k] != '}'
        {
          if k < |ft| {
            assert t[k] == ft[k];
          } else if k > |ft| {
            assert t[k] == rest[k - |ft| - 1];
          }
        }
      }
    }
  }
}
