/**
 The pieces of Go's `strings` and `fmt` packages that the yak command calls,
 written out over `string` (a `seq<char>`) so that what they return can be
 reasoned about, together with `Split`, the inverse of `Join` used to state
 what joining preserves.
 */
module GoStrings {

  /** `strings.HasPrefix(s, prefix)`. */
  predicate HasPrefix(s: string, prefix: string) {
    |prefix| <= |s| && s[..|prefix|] == prefix
  }

  /** A string starts with each of its prefixes. */
  lemma PrefixOfConcat(a: string, b: string)
    ensures HasPrefix(a + b, a)
  {
    assert (a + b)[..|a|] == a;
  }

  /** A string that starts with `prefix` is `prefix` followed by the rest. */
  lemma PrefixSplit(s: string, prefix: string)
    requires HasPrefix(s, prefix)
    ensures s == prefix + s[|prefix|..]
  {
  }

  /** Sum of the lengths of the strings in `elems`. */
  function TotalLength(elems: seq<string>): nat {
    if |elems| == 0 then 0 else |elems[0]| + TotalLength(elems[1..])
  }

  /**
   `strings.Join(elems, sep)`: no elements give the empty string, one element
   is returned as it is, and otherwise `sep` is put between neighbours.
   */
  function Join(elems: seq<string>, sep: string): (r: string)
    ensures |elems| == 0 ==> r == ""
    ensures |elems| > 0 ==> |r| == TotalLength(elems) + (|elems| - 1) * |sep|
    ensures |elems| > 0 ==> HasPrefix(r, elems[0])
  {
    if |elems| == 0 then ""
    else if |elems| == 1 then elems[0]
    else elems[0] + sep + Join(elems[1..], sep)
  }

  /**
   Where element `i` starts in `Join(elems, sep)`: the lengths of the
   elements before it, each followed by one separator.
   */
  function Offset(elems: seq<string>, sep: string, i: nat): nat
    requires i <= |elems|
  {
    if i == 0 then 0 else |elems[0]| + |sep| + Offset(elems[1..], sep, i - 1)
  }

  /** The next element starts one element and one separator further on. */
  lemma {:induction false} OffsetNext(elems: seq<string>, sep: string, i: nat)
    requires i < |elems|
    ensures Offset(elems, sep, i + 1) == Offset(elems, sep, i) + |elems[i]| + |sep|
  {
    if i > 0 {
      OffsetNext(elems[1..], sep, i - 1);
      assert elems[1..][i - 1] == elems[i];
    }
  }

  /**
   Every element of `Join(elems, sep)` sits at its offset: with `JoinSeparator`
   and the length in `Join`'s contract this fixes every character of the result.
   */
  lemma {:induction false} JoinPlaces(elems: seq<string>, sep: string, i: nat)
    requires i < |elems|
    ensures Offset(elems, sep, i) + |elems[i]| <= |Join(elems, sep)|
    ensures Join(elems, sep)[Offset(elems, sep, i)..Offset(elems, sep, i) + |elems[i]|] == elems[i]
  {
    if |elems| > 1 {
      var r := Join(elems, sep);
      var head := elems[0] + sep;
      var tail := Join(elems[1..], sep);
      assert r == head + tail;
      if i > 0 {
        JoinPlaces(elems[1..], sep, i - 1);
        var o := Offset(elems[1..], sep, i - 1);
        var n := |elems[i]|;
        assert elems[1..][i - 1] == elems[i];
        assert Offset(elems, sep, i) == |head| + o;
        assert r[|head| + o..|head| + o + n] == tail[o..o + n];
      }
    }
  }

  /** A separator follows every element but the last in `Join(elems, sep)`. */
  lemma {:induction false} JoinSeparator(elems: seq<string>, sep: string, i: nat)
    requires i + 1 < |elems|
    ensures var k := Offset(elems, sep, i) + |elems[i]|;
      k + |sep| <= |Join(elems, sep)| && Join(elems, sep)[k..k + |sep|] == sep
  {
    var r := Join(elems, sep);
    var head := elems[0] + sep;
    var tail := Join(elems[1..], sep);
    assert r == head + tail;
    if i > 0 {
      JoinSeparator(elems[1..], sep, i - 1);
      var k := Offset(elems[1..], sep, i - 1) + |elems[i]|;
      assert elems[1..][i - 1] == elems[i];
      assert Offset(elems, sep, i) + |elems[i]| == |head| + k;
      assert r[|head| + k..|head| + k + |sep|] == tail[k..k + |sep|];
    }
  }

  /**
   `strings.Split(s, string(c))` for a one-character separator: the pieces of
   `s` between occurrences of `c`. There is always at least one piece, and no
   piece contains the separator.
   */
  function Split(s: string, c: char): (r: seq<string>)
    ensures |r| > 0
    ensures forall i :: 0 <= i < |r| ==> c !in r[i]
  {
    if |s| == 0 then [""]
    else
      var rest := Split(s[1..], c);
      if s[0] == c then [""] + rest
      else [[s[0]] + rest[0]] + rest[1..]
  }

  /** A string without the separator is a single piece. */
  lemma {:induction false} SplitWhole(x: string, c: char)
    requires c !in x
    ensures Split(x, c) == [x]
  {
    if |x| > 0 {
      assert x[0] != c;
      SplitWhole(x[1..], c);
      assert [x[0]] + x[1..] == x;
    }
  }

  /** Splitting `x + [c] + y` cuts off `x` as the first piece when `x` has no `c`. */
  lemma {:induction false} SplitAtFirst(x: string, y: string, c: char)
    requires c !in x
    ensures Split(x + [c] + y, c) == [x] + Split(y, c)
  {
    var s := x + [c] + y;
    if |x| == 0 {
      assert s == [c] + y;
      assert s[1..] == y;
    } else {
      assert s[1..] == x[1..] + [c] + y;
      SplitAtFirst(x[1..], y, c);
      assert [x[0]] + x[1..] == x;
    }
  }

  /**
   Joining with a one-character separator and splitting on it again gives
   back the elements, as long as there is at least one element and none of
   them contains the separator.
   */
  lemma {:induction false} SplitJoin(elems: seq<string>, c: char)
    requires |elems| > 0
    requires forall i :: 0 <= i < |elems| ==> c !in elems[i]
    ensures Split(Join(elems, [c]), c) == elems
  {
    if |elems| == 1 {
      SplitWhole(elems[0], c);
    } else {
      SplitJoin(elems[1..], c);
      SplitAtFirst(elems[0], Join(elems[1..], [c]), c);
      assert [elems[0]] + elems[1..] == elems;
    }
  }

  /** Index of the first `c` in `s`, or `|s|` when there is none. */
  function FirstIndex(s: string, c: char): (i: nat)
    ensures i <= |s|
    ensures i < |s| ==> s[i] == c
    ensures forall j :: 0 <= j < i ==> s[j] != c
  {
    if |s| == 0 then 0
    else if s[0] == c then 0
    else 1 + FirstIndex(s[1..], c)
  }

  /** What `fmt.Sprintf` writes for a `%s` verb that has no argument left. */
  const MissingArgument := "%!s(MISSING)"

  /** What `fmt.Sprintf` appends for arguments that no verb consumed. */
  function ExtraArguments(args: seq<string>): string {
    if |args| == 0 then ""
    else "%!(EXTRA " + Join(seq(|args|, i requires 0 <= i < |args| => "string=" + args[i]), ", ") + ")"
  }

  /**
   `fmt.Sprintf(format, args...)` with string arguments, for formats whose
   only verbs are `%s` (an argument, inserted unchanged) and `%%` (a literal
   percent sign).
   */
  function Sprintf(format: string, args: seq<string>): string
    decreases |format|
  {
    if |format| == 0 then ExtraArguments(args)
    else if HasPrefix(format, "%s") then
      if |args| == 0 then MissingArgument + Sprintf(format[2..], args)
      else args[0] + Sprintf(format[2..], args[1..])
    else if HasPrefix(format, "%%") then "%" + Sprintf(format[2..], args)
    else [format[0]] + Sprintf(format[1..], args)
  }

  /** Text without a percent sign is copied through unchanged. */
  lemma {:induction false} SprintfText(text: string, rest: string, args: seq<string>)
    requires '%' !in text
    ensures Sprintf(text + rest, args) == text + Sprintf(rest, args)
  {
    if |text| > 0 {
      var format := text + rest;
      assert format[0] == text[0];
      assert format[1..] == text[1..] + rest;
      SprintfText(text[1..], rest, args);
      assert [text[0]] + text[1..] == text;
    } else {
      assert text + rest == rest;
    }
  }

  /** A `%s` verb consumes the next argument and inserts it unchanged. */
  lemma SprintfVerb(rest: string, arg: string, args: seq<string>)
    ensures Sprintf("%s" + rest, [arg] + args) == arg + Sprintf(rest, args)
  {
    var format := "%s" + rest;
    assert HasPrefix(format, "%s");
    assert format[2..] == rest;
    assert ([arg] + args)[1..] == args;
  }

  /**
   A format of two `%s` verbs around percent-free text, given two arguments,
   is the text with the arguments put in place.
   */
  lemma SprintfTwoVerbs(format: string, before: string, between: string, first: string, second: string)
    requires format == before + "%s" + between + "%s"
    requires '%' !in before && '%' !in between
    ensures Sprintf(format, [first, second]) == before + first + between + second
  {
    var tail := between + "%s";
    assert format == before + ("%s" + tail);
    SprintfText(before, "%s" + tail, [first, second]);
    assert [first, second] == [first] + [second];
    SprintfVerb(tail, first, [second]);
    assert "%s" == "%s" + "";
    assert tail == between + ("%s" + "");
    SprintfText(between, "%s" + "", [second]);
    assert [second] == [second] + [];
    SprintfVerb("", second, []);
    assert ExtraArguments([]) == "";
  }
}
