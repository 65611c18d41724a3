/** Splitting command text the way `String.prototype.split(' ')` does:
    on every single space, keeping empty fields, so `n` spaces always give
    `n + 1` fields.
 */
module Text {

  const Space: char := ' '

  predicate SpaceFree(s: string)
  {
    Space !in s
  }

  /** Glue fields back together with one space between neighbours. */
  function Join(fields: seq<string>): string
    requires |fields| >= 1
  {
    if |fields| == 1 then fields[0] else fields[0] + [Space] + Join(fields[1..])
  }

  /** The fields of `s` between single spaces. Every field is free of
      spaces, and joining them gives back `s`. */
  function Split(s: string): (r: seq<string>)
    ensures |r| >= 1
    ensures forall i :: 0 <= i < |r| ==> SpaceFree(r[i])
    ensures Join(r) == s
  {
    if |s| == 0 then [""]
    else if s[0] == Space then
      var rest := Split(s[1..]);
      assert s == [Space] + s[1..];
      [""] + rest
    else
      var rest := Split(s[1..]);
      var r := [[s[0]] + rest[0]] + rest[1..];
      assert r[1..] == rest[1..];
      assert s == [s[0]] + s[1..];
      r
  }

  /** A leading space-free word followed by a space ends the first field. */
  lemma {:induction false} SplitAfterWord(a: string, t: string)
    requires SpaceFree(a)
    ensures Split(a + [Space] + t) == [a] + Split(t)
    decreases |a|
  {
    var s := a + [Space] + t;
    if |a| == 0 {
      assert s == [Space] + t;
      assert s[1..] == t;
    } else {
      assert s[0] == a[0];
      assert s[1..] == a[1..] + [Space] + t;
      SplitAfterWord(a[1..], t);
      assert [a[0]] + a[1..] == a;
    }
  }

  /** A space-free string is a single field. */
  lemma {:induction false} SplitWord(a: string)
    requires SpaceFree(a)
    ensures Split(a) == [a]
    decreases |a|
  {
    if |a| > 0 {
      SplitWord(a[1..]);
      assert [a[0]] + a[1..] == a;
    }
  }

  /** The text splits into a single field exactly when it holds no space. */
  lemma SplitOneFieldIff(s: string)
    ensures |Split(s)| == 1 <==> SpaceFree(s)
  {
    if SpaceFree(s) {
      SplitWord(s);
    }
  }

  /** Splitting undoes joining space-free fields: `Split` and `Join` are
      inverse bijections between strings and non-empty sequences of
      space-free fields. */
  lemma {:induction false} SplitJoin(fields: seq<string>)
    requires |fields| >= 1
    requires forall i :: 0 <= i < |fields| ==> SpaceFree(fields[i])
    ensures Split(Join(fields)) == fields
    decreases |fields|
  {
    if |fields| == 1 {
      SplitWord(fields[0]);
    } else {
      SplitJoin(fields[1..]);
      SplitAfterWord(fields[0], Join(fields[1..]));
      assert fields == [fields[0]] + fields[1..];
    }
  }
}
