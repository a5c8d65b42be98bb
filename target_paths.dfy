/** Target paths: a static description of what a function may read, and the
    splitting of a dotted path string such as "foo.bar.baz" into segments. */
module TargetPaths {

  /** The closed set of storage classes a function can read from. */
  datatype TargetKind = TargetValue | TargetMetadata | TargetVariable

  /** A location of kind `kind`; `path` is empty for a whole-document reference. */
  datatype TargetPath = TargetPath(kind: TargetKind, path: seq<string>)

  /** The number of '.' characters in `s`. */
  function CountDots(s: string): nat
  {
    if s == [] then 0 else (if s[0] == '.' then 1 else 0) + CountDots(s[1..])
  }

  /** Splits `s` at every '.', keeping empty segments: one more segment than
      there are dots, and no segment holds a dot. */
  function SplitDots(s: string): (r: seq<string>)
    ensures |r| == CountDots(s) + 1
    ensures forall i :: 0 <= i < |r| ==> '.' !in r[i]
    decreases |s|
  {
    if s == [] then [""]
    else
      var rest := SplitDots(s[1..]);
      if s[0] == '.' then [""] + rest
      else [[s[0]] + rest[0]] + rest[1..]
  }

  /** Joins segments with '.' between consecutive ones. */
  function JoinDots(segs: seq<string>): string
  {
    if |segs| == 0 then ""
    else if |segs| == 1 then segs[0]
    else segs[0] + "." + JoinDots(segs[1..])
  }

  /** The segments of a dotted path; the empty string names the whole document. */
  function DotPath(s: string): (r: seq<string>)
    ensures s == "" <==> r == []
    ensures forall i :: 0 <= i < |r| ==> '.' !in r[i]
  {
    if s == "" then [] else SplitDots(s)
  }

  /** Joining the pieces of a split gives the original string back. */
  lemma {:induction false} JoinSplitDots(s: string)
    ensures JoinDots(SplitDots(s)) == s
    decreases |s|
  {
    if s != [] {
      var rest := SplitDots(s[1..]);
      JoinSplitDots(s[1..]);
      if s[0] == '.' {
        assert ([""] + rest)[1..] == rest;
        assert s == "." + s[1..];
      } else {
        var r := [[s[0]] + rest[0]] + rest[1..];
        assert r[1..] == rest[1..];
        if |rest| > 1 {
          assert JoinDots(rest) == rest[0] + "." + JoinDots(rest[1..]);
        }
        assert s == [s[0]] + s[1..];
      }
    }
  }

  /** Splitting a dot-free prefix `a` in front of `t` extends the first piece of `t`. */
  lemma {:induction false} SplitDotsPrefix(a: string, t: string)
    requires '.' !in a
    ensures SplitDots(a + t) == [a + SplitDots(t)[0]] + SplitDots(t)[1..]
    decreases |a|
  {
    if a != [] {
      assert (a + t)[0] == a[0];
      assert (a + t)[1..] == a[1..] + t;
      SplitDotsPrefix(a[1..], t);
      assert [a[0]] + (a[1..] + SplitDots(t)[0]) == a + SplitDots(t)[0];
    } else {
      var r := SplitDots(t);
      assert a + t == t;
      assert a + r[0] == r[0];
      assert r == [r[0]] + r[1..];
    }
  }

  /** Splitting joined dot-free segments gives the segments back. */
  lemma {:induction false} SplitJoinDots(segs: seq<string>)
    requires |segs| > 0
    requires forall i :: 0 <= i < |segs| ==> '.' !in segs[i]
    ensures SplitDots(JoinDots(segs)) == segs
    decreases |segs|
  {
    if |segs| == 1 {
      SplitDotsPrefix(segs[0], "");
      assert segs[0] + "" == segs[0];
    } else {
      var tail := JoinDots(segs[1..]);
      SplitJoinDots(segs[1..]);
      assert segs[0] + "." + tail == segs[0] + ("." + tail);
      SplitDotsPrefix(segs[0], "." + tail);
      assert ("." + tail)[1..] == tail;
      assert SplitDots("." + tail) == [""] + segs[1..];
      assert segs[0] + "" == segs[0];
      assert segs == [segs[0]] + segs[1..];
    }
  }

  /** `DotPath` and `JoinDots` are inverse: every path string is recovered
      from its segments, and every segment list that a path string can
      denote is recovered from its joined form. */
  lemma DotPathRoundTrip(s: string, segs: seq<string>)
    requires forall i :: 0 <= i < |segs| ==> '.' !in segs[i]
    requires segs != [""]
    ensures JoinDots(DotPath(s)) == s
    ensures DotPath(JoinDots(segs)) == segs
  {
    if s != "" {
      JoinSplitDots(s);
    }
    if segs != [] {
      SplitJoinDots(segs);
      if |segs| > 1 {
        assert JoinDots(segs) == segs[0] + "." + JoinDots(segs[1..]);
        assert |JoinDots(segs)| > 0;
      }
    }
  }

  /** A non-empty dot-free string is a path of one segment. */
  lemma DotPathSingle(s: string)
    requires s != "" && '.' !in s
    ensures DotPath(s) == [s]
  {
    SplitJoinDots([s]);
  }
}
