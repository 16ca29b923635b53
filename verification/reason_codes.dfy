/** The comma-joined text form in which an intercept row stores its reason codes. */
module ReasonCodes {

  /** True when `s` holds no comma. */
  predicate CommaFree(s: string) {
    forall i :: 0 <= i < |s| ==> s[i] != ','
  }

  /** Python's `",".join(reasons)`: the codes in order, separated by single commas. */
  function Join(reasons: seq<string>): (s: string)
    ensures |reasons| == 1 ==> s == reasons[0]
    ensures |reasons| == 0 ==> s == ""
  {
    if |reasons| == 0 then ""
    else if |reasons| == 1 then reasons[0]
    else reasons[0] + "," + Join(reasons[1..])
  }

  /** Python's `s.split(",")`: the maximal comma-free pieces of `s`, in order.
      Like Python's, it never returns an empty list: `"".split(",") == [""]`. */
  function Split(s: string): (pieces: seq<string>)
    ensures |pieces| >= 1
    ensures CommaFree(s) ==> pieces == [s]
    decreases |s|
  {
    if |s| == 0 then [""]
    else if s[0] == ',' then [""] + Split(s[1..])
    else
      var rest := Split(s[1..]);
      assert CommaFree(s) ==> CommaFree(s[1..]) by {
        if CommaFree(s) {
          forall i | 0 <= i < |s[1..]| ensures s[1..][i] != ',' {
            assert s[1..][i] == s[i + 1];
          }
        }
      }
      assert [s[0]] + s[1..] == s;
      [[s[0]] + rest[0]] + rest[1..]
  }

  /** Splitting after a comma-free prefix and a comma yields that prefix, then the
      pieces of the remainder. */
  lemma {:induction false} SplitAfterPrefix(a: string, t: string)
    requires CommaFree(a)
    ensures Split(a + "," + t) == [a] + Split(t)
    decreases |a|
  {
    if |a| == 0 {
      assert a + "," + t == [','] + t;
      assert (a + "," + t)[1..] == t;
    } else {
      var tail := a[1..];
      assert (a + "," + t)[0] == a[0];
      assert (a + "," + t)[1..] == tail + "," + t;
      SplitAfterPrefix(tail, t);
      assert [a[0]] + tail == a;
    }
  }

  /** The stored text decodes back to the reason codes whenever the list is
      non-empty and no code holds a comma. */
  lemma {:induction false} SplitJoin(reasons: seq<string>)
    requires |reasons| >= 1
    requires forall i :: 0 <= i < |reasons| ==> CommaFree(reasons[i])
    ensures Split(Join(reasons)) == reasons
    decreases |reasons|
  {
    if |reasons| == 1 {
      assert Split(reasons[0]) == [reasons[0]];
    } else {
      var rest := reasons[1..];
      assert forall i :: 0 <= i < |rest| ==> CommaFree(rest[i]) by {
        forall i | 0 <= i < |rest| ensures CommaFree(rest[i]) {
          assert rest[i] == reasons[i + 1];
        }
      }
      SplitJoin(rest);
      SplitAfterPrefix(reasons[0], Join(rest));
      assert [reasons[0]] + rest == reasons;
    }
  }

  /** Joining two non-empty lists back to back is joining each and putting one
      comma between them; with the zero- and one-code cases this fixes `Join` on
      every list, commas inside codes included. */
  lemma {:induction false} JoinAppend(a: seq<string>, b: seq<string>)
    requires |a| >= 1 && |b| >= 1
    ensures Join(a + b) == Join(a) + "," + Join(b)
    decreases |a|
  {
    if |a| == 1 {
      assert (a + b)[1..] == b;
    } else {
      assert (a + b)[1..] == a[1..] + b;
      JoinAppend(a[1..], b);
    }
  }

  /** Prefixing text to the first code prefixes it to the joined text. */
  lemma JoinConsHead(c: string, x: string, t: seq<string>)
    ensures Join([c + x] + t) == c + Join([x] + t)
  {
  }

  /** Every text is the join of its comma-separated pieces, so `Split` is
      injective and `Join` is its left inverse on all texts. */
  lemma {:induction false} JoinSplit(s: string)
    ensures Join(Split(s)) == s
    decreases |s|
  {
    if |s| == 0 {
    } else if s[0] == ',' {
      var t := Split(s[1..]);
      JoinSplit(s[1..]);
      assert ([""] + t)[1..] == t;
      assert s == "," + s[1..];
    } else {
      var rest := Split(s[1..]);
      JoinSplit(s[1..]);
      JoinConsHead([s[0]], rest[0], rest[1..]);
      assert [rest[0]] + rest[1..] == rest;
      assert s == [s[0]] + s[1..];
    }
  }

  /** The encoding loses information at the edges: no reasons and a single empty
      reason are stored as the same text, and so are the two different lists
      `["A,B"]` and `["A", "B"]` once a code holds a comma. */
  lemma JoinNotInjective()
    ensures Join([]) == Join([""])
    ensures Join(["A,B"]) == Join(["A", "B"])
  {
  }
}
