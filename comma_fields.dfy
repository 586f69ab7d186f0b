/**
 * Comma-separated fields, the shape `string.Format("{0},{1},...")` gives
 * the argument lists of AT commands, with the splitting that reads them back.
 */
module CommaFields {

  predicate NoComma(s: string) {
    forall i :: 0 <= i < |s| ==> s[i] != ','
  }

  function Join(fields: seq<string>): string
    requires |fields| >= 1
  {
    if |fields| == 1 then fields[0] else fields[0] + "," + Join(fields[1..])
  }

  lemma {:induction false} JoinAppend(xs: seq<string>, ys: seq<string>)
    requires |xs| >= 1 && |ys| >= 1
    ensures Join(xs + ys) == Join(xs) + "," + Join(ys)
  {
    assert (xs + ys)[1..] == xs[1..] + ys;
    if |xs| > 1 {
      JoinAppend(xs[1..], ys);
    }
  }

  lemma JoinFour(a: string, b: string, c: string, d: string)
    ensures Join([a, b, c, d]) == a + "," + b + "," + c + "," + d
  {
    calc {
      Join([a, b, c, d]);
      { assert [a, b, c, d][1..] == [b, c, d]; }
      a + "," + Join([b, c, d]);
      { assert [b, c, d][1..] == [c, d]; }
      a + "," + (b + "," + Join([c, d]));
      { assert [c, d][1..] == [d]; }
      a + "," + (b + "," + (c + "," + d));
      a + "," + b + "," + c + "," + d;
    }
  }

  lemma JoinThree(a: string, b: string, c: string)
    ensures Join([a, b, c]) == a + "," + b + "," + c
  {
    calc {
      Join([a, b, c]);
      { assert [a, b, c][1..] == [b, c]; }
      a + "," + Join([b, c]);
      { assert [b, c][1..] == [c]; }
      a + "," + (b + "," + c);
      a + "," + b + "," + c;
    }
  }

  /** Cuts a string at every comma; there is always at least one field. */
  function Split(s: string): (fields: seq<string>)
    ensures |fields| >= 1
    ensures forall k :: 0 <= k < |fields| ==> NoComma(fields[k])
  {
    if s == [] then [[]]
    else if s[0] == ',' then [[]] + Split(s[1..])
    else
      var rest := Split(s[1..]);
      [[s[0]] + rest[0]] + rest[1..]
  }

  /** A comma-free prefix becomes the first field. */
  lemma {:induction false} SplitComma(f: string, rest: string)
    requires NoComma(f)
    ensures Split(f + "," + rest) == [f] + Split(rest)
  {
    if f == [] {
      assert f + "," + rest == [','] + rest;
      assert ([','] + rest)[1..] == rest;
    } else {
      assert (f + "," + rest)[1..] == f[1..] + "," + rest;
      SplitComma(f[1..], rest);
      assert [f[0]] + f[1..] == f;
    }
  }

  /** Whatever follows the last field, the first field is still read back. */
  lemma SplitFirstField(fields: seq<string>, tail: string)
    requires |fields| >= 2 && NoComma(fields[0])
    ensures Split(Join(fields) + tail)[0] == fields[0]
  {
    assert Join(fields) + tail == fields[0] + "," + (Join(fields[1..]) + tail);
    SplitComma(fields[0], Join(fields[1..]) + tail);
  }

  lemma {:induction false} SplitNoComma(f: string)
    requires NoComma(f)
    ensures Split(f) == [f]
  {
    if f != [] {
      SplitNoComma(f[1..]);
      assert [f[0]] + f[1..] == f;
    }
  }

  /** Splitting undoes joining when no field holds a comma. */
  lemma {:induction false} SplitJoin(fields: seq<string>)
    requires |fields| >= 1
    requires forall k :: 0 <= k < |fields| ==> NoComma(fields[k])
    ensures Split(Join(fields)) == fields
  {
    if |fields| == 1 {
      SplitNoComma(fields[0]);
    } else {
      SplitJoin(fields[1..]);
      SplitComma(fields[0], Join(fields[1..]));
    }
  }

  /** Joining undoes splitting: no character is lost or added. */
  lemma {:induction false} JoinSplit(s: string)
    ensures Join(Split(s)) == s
  {
    if s != [] {
      JoinSplit(s[1..]);
      var rest := Split(s[1..]);
      if s[0] == ',' {
        assert ([[]] + rest)[1..] == rest;
      } else {
        var fields := [[s[0]] + rest[0]] + rest[1..];
        if |rest| == 1 {
          assert Join(fields) == [s[0]] + rest[0];
        } else {
          assert fields[1..] == rest[1..];
          assert Join(rest) == rest[0] + "," + Join(rest[1..]);
        }
        assert s == [s[0]] + s[1..];
      }
    }
  }
}
