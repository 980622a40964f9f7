/**
 Whole ids in a text. An id is made of word characters, so a whole occurrence is
 a maximal run of word characters, here called a token; `word` is the character
 class of apps/opps/doc_ids.py, `[\w-]`.
 */
module IdTokens {
  predicate WordOnly(word: char -> bool, s: string) {
    forall i | 0 <= i < |s| :: word(s[i])
  }

  /** Every token t replaced by f(t), the rest kept; `run` is the token so far. */
  function OnTokens(word: char -> bool, s: string, run: string, f: string -> string): string {
    if s == "" then f(run)
    else if word(s[0]) then OnTokens(word, s[1..], run + [s[0]], f)
    else f(run) + [s[0]] + OnTokens(word, s[1..], "", f)
  }

  predicate EachToken(word: char -> bool, s: string, run: string, p: string -> bool) {
    if s == "" then p(run)
    else if word(s[0]) then EachToken(word, s[1..], run + [s[0]], p)
    else p(run) && EachToken(word, s[1..], "", p)
  }

  /** How many tokens are the id. */
  function Hits(word: char -> bool, s: string, run: string, id: string): nat {
    if s == "" then if run == id then 1 else 0
    else if word(s[0]) then Hits(word, s[1..], run + [s[0]], id)
    else (if run == id then 1 else 0) + Hits(word, s[1..], "", id)
  }

  // ----- Substring counting and replacing ------------------------------------------

  /** Python's `str.count`. */
  function Count(s: string, a: string): nat
    requires a != ""
  {
    if |s| < |a| then 0 else if a <= s then 1 + Count(s[|a|..], a) else Count(s[1..], a)
  }

  /** `replaceAllText`, case-sensitive. */
  function Replace(s: string, a: string, b: string): string
    requires a != ""
  {
    if |s| < |a| then s else if a <= s then b + Replace(s[|a|..], a, b) else [s[0]] + Replace(s[1..], a, b)
  }

  ghost predicate OccursAt(s: string, a: string, p: nat) {
    p + |a| <= |s| && s[p..p + |a|] == a
  }

  ghost predicate Occurs(s: string, a: string) {
    exists p: nat :: OccursAt(s, a, p)
  }

  ghost predicate WholeAt(word: char -> bool, s: string, a: string, p: nat) {
    OccursAt(s, a, p) && (p == 0 || !word(s[p - 1])) && (p + |a| == |s| || !word(s[p + |a|]))
  }

  /** Every substring occurrence is a whole id. */
  ghost predicate AllWhole(word: char -> bool, s: string, a: string) {
    forall p: nat | OccursAt(s, a, p) :: WholeAt(word, s, a, p)
  }

  lemma OccursTail(s: string, a: string, k: nat)
    requires k <= |s|
    ensures Occurs(s[k..], a) ==> Occurs(s, a)
  {
    if Occurs(s[k..], a) {
      var p: nat :| OccursAt(s[k..], a, p);
      assert s[k..][p..p + |a|] == s[p + k..p + k + |a|];
      assert OccursAt(s, a, p + k);
    }
  }

  lemma {:induction false} CountZero(s: string, a: string)
    requires a != ""
    ensures Count(s, a) == 0 <==> !Occurs(s, a)
    decreases |s|
  {
    if |s| < |a| {
    } else if a <= s {
      assert OccursAt(s, a, 0);
    } else {
      CountZero(s[1..], a);
      OccursTail(s, a, 1);
      if p: nat :| OccursAt(s, a, p) {
        assert p > 0 && s[1..][p - 1..p - 1 + |a|] == s[p..p + |a|];
        assert OccursAt(s[1..], a, p - 1);
      }
    }
  }

  lemma {:induction false} ReplaceNone(s: string, a: string, b: string)
    requires a != "" && Count(s, a) == 0
    ensures Replace(s, a, b) == s
    decreases |s|
  {
    if |s| >= |a| {
      ReplaceNone(s[1..], a, b);
    }
  }

  lemma ReplaceSelf(a: string, b: string)
    requires a != ""
    ensures Replace(a, a, b) == b && Count(a, a) == 1
  {
    assert a[|a|..] == "";
    assert b + "" == b;
  }

  /** An id never spans a character that is not in its class. */
  lemma PrefixSplit(word: char -> bool, x: string, c: char, y: string, a: string)
    requires a != "" && WordOnly(word, a) && !word(c) && a <= x + [c] + y
    ensures |a| <= |x| && a <= x
  {
    assert (x + [c] + y)[|x|] == c;
    assert forall i | 0 <= i < |a| :: a[i] == (x + [c] + y)[i];
  }

  lemma {:induction false} SplitBoth(word: char -> bool, x: string, c: char, y: string, a: string, b: string)
    requires a != "" && WordOnly(word, a) && !word(c)
    ensures Count(x + [c] + y, a) == Count(x, a) + Count(y, a)
    ensures Replace(x + [c] + y, a, b) == Replace(x, a, b) + [c] + Replace(y, a, b)
    decreases |x|
  {
    hide Count, Replace, WordOnly;
    var s := x + [c] + y;
    ShortCount(s, a, b);
    ShortCount(x, a, b);
    if a <= s {
      PrefixSplit(word, x, c, y, a);
      SkipsWhole(s, a, b);
      SkipsWhole(x, a, b);
      assert s[|a|..] == x[|a|..] + [c] + y;
      SplitBoth(word, x[|a|..], c, y, a, b);
      Joined(b, Replace(x[|a|..], a, b), [c], Replace(y, a, b));
    } else if x == "" {
      assert s[1..] == y && s[0] == c;
      ShortCount("", a, b);
    } else {
      assert s[1..] == x[1..] + [c] + y && s[0] == x[0];
      assert a <= x ==> a <= s;
      SplitBoth(word, x[1..], c, y, a, b);
      Joined([x[0]], Replace(x[1..], a, b), [c], Replace(y, a, b));
    }
  }

  lemma Joined(p: string, q: string, m: string, t: string)
    ensures p + (q + m + t) == p + q + m + t
  {
  }

  lemma SkipsWhole(s: string, a: string, b: string)
    requires a != "" && a <= s
    ensures Count(s, a) == 1 + Count(s[|a|..], a) && Replace(s, a, b) == b + Replace(s[|a|..], a, b)
  {
  }

  /** Skipping a character at which no occurrence starts. */
  lemma ShortCount(x: string, a: string, b: string)
    requires a != ""
    ensures x != "" && !(a <= x) ==> Count(x, a) == Count(x[1..], a) && Replace(x, a, b) == [x[0]] + Replace(x[1..], a, b)
    ensures |x| < |a| ==> Count(x, a) == 0 && Replace(x, a, b) == x
  {
    if x != "" && |x| < |a| {
      assert x == [x[0]] + x[1..];
    }
  }

  // ----- Token by token ----------------------------------------------------------------

  lemma NextToken(s: string, run: string)
    requires s != ""
    ensures run + s == run + [s[0]] + s[1..] && run + [s[0]] + s[1..] == (run + [s[0]]) + s[1..]
  {
  }

  /** Replacing an id as a substring works inside each token separately. */
  lemma {:induction false} ReplaceByToken(word: char -> bool, s: string, run: string, a: string, b: string)
    requires a != "" && WordOnly(word, a)
    ensures Replace(run + s, a, b) == OnTokens(word, s, run, t requires a != "" => Replace(t, a, b))
    decreases |s|
  {
    hide Replace, Count, WordOnly;
    if s == "" {
      assert run + s == run;
    } else {
      NextToken(s, run);
      if word(s[0]) {
        ReplaceByToken(word, s[1..], run + [s[0]], a, b);
      } else {
        SplitBoth(word, run, s[0], s[1..], a, b);
        ReplaceByToken(word, s[1..], "", a, b);
        assert "" + s[1..] == s[1..];
      }
    }
  }

  /** A token that the id occurs in is the id. */
  ghost predicate Clean(word: char -> bool, s: string, run: string, a: string)
    requires a != ""
  {
    if s == "" then run == a || Count(run, a) == 0
    else if word(s[0]) then Clean(word, s[1..], run + [s[0]], a)
    else (run == a || Count(run, a) == 0) && Clean(word, s[1..], "", a)
  }

  /** The guard: the id occurs as often as it is a token exactly when it occurs
      nowhere else. */
  lemma {:induction false} CountsAgree(word: char -> bool, s: string, run: string, a: string)
    requires a != "" && WordOnly(word, a)
    ensures Count(run + s, a) >= Hits(word, s, run, a)
    ensures Count(run + s, a) == Hits(word, s, run, a) <==> Clean(word, s, run, a)
    decreases |s|
  {
    hide Count, Replace, WordOnly;
    ReplaceSelf(a, "");
    if s == "" {
      assert run + s == run;
    } else {
      NextToken(s, run);
      if word(s[0]) {
        CountsAgree(word, s[1..], run + [s[0]], a);
      } else {
        SplitBoth(word, run, s[0], s[1..], a, "");
        CountsAgree(word, s[1..], "", a);
        assert "" + s[1..] == s[1..];
      }
    }
  }

  /** And that is when every substring occurrence is a whole id. */
  lemma {:induction false} CleanIsWhole(word: char -> bool, s: string, run: string, a: string)
    requires a != "" && WordOnly(word, a) && WordOnly(word, run)
    ensures Clean(word, s, run, a) <==> AllWhole(word, run + s, a)
    decreases |s|
  {
    hide Count, AllWhole;
    if s == "" {
      assert run + s == run;
      OneToken(word, run, a);
    } else {
      NextToken(s, run);
      if word(s[0]) {
        CleanIsWhole(word, s[1..], run + [s[0]], a);
      } else {
        OneToken(word, run, a);
        WholeSplit(word, run, s[0], s[1..], a);
        CleanIsWhole(word, s[1..], "", a);
        assert "" + s[1..] == s[1..];
      }
    }
  }

  lemma OneToken(word: char -> bool, run: string, a: string)
    requires a != "" && WordOnly(word, a) && WordOnly(word, run)
    ensures AllWhole(word, run, a) <==> run == a || Count(run, a) == 0
  {
    hide Count;
    CountZero(run, a);
    if Occurs(run, a) && AllWhole(word, run, a) {
      var p: nat :| OccursAt(run, a, p);
      assert WholeAt(word, run, a, p);
      assert p == 0 && |a| == |run| && run[0..|a|] == run;
    }
    if run == a {
      forall p: nat | OccursAt(run, a, p) ensures WholeAt(word, run, a, p) {
        assert p == 0;
      }
    }
  }

  lemma WholeSplit(word: char -> bool, x: string, c: char, y: string, a: string)
    requires a != "" && WordOnly(word, a) && !word(c)
    ensures AllWhole(word, x + [c] + y, a) <==> AllWhole(word, x, a) && AllWhole(word, y, a)
  {
    var s := x + [c] + y;
    if AllWhole(word, s, a) {
      forall p: nat | OccursAt(x, a, p) ensures WholeAt(word, x, a, p) {
        InLeft(word, x, c, y, a, p);
      }
      forall p: nat | OccursAt(y, a, p) ensures WholeAt(word, y, a, p) {
        InRight(word, x, c, y, a, p);
      }
    }
    if AllWhole(word, x, a) && AllWhole(word, y, a) {
      forall p: nat | OccursAt(s, a, p) ensures WholeAt(word, s, a, p) {
        NotAcross(word, x, c, y, a, p);
        if p + |a| <= |x| {
          InLeft(word, x, c, y, a, p);
        } else {
          InRight(word, x, c, y, a, p - |x| - 1);
        }
      }
    }
  }

  lemma NotAcross(word: char -> bool, x: string, c: char, y: string, a: string, p: nat)
    requires a != "" && WordOnly(word, a) && !word(c) && OccursAt(x + [c] + y, a, p)
    ensures p + |a| <= |x| || p > |x|
  {
    if p <= |x| < p + |a| {
      CharOf(x + [c] + y, a, p, |x| - p);
    }
  }

  lemma CharOf(s: string, a: string, p: nat, k: nat)
    requires OccursAt(s, a, p) && k < |a|
    ensures s[p + k] == a[k]
  {
    assert s[p..p + |a|][k] == s[p + k];
  }

  lemma InLeft(word: char -> bool, x: string, c: char, y: string, a: string, p: nat)
    requires a != "" && !word(c) && p + |a| <= |x|
    ensures OccursAt(x + [c] + y, a, p) == OccursAt(x, a, p)
    ensures WholeAt(word, x + [c] + y, a, p) == WholeAt(word, x, a, p)
  {
    var s := x + [c] + y;
    assert s[p..p + |a|] == x[p..p + |a|];
    assert p > 0 ==> s[p - 1] == x[p - 1];
    assert p + |a| < |x| ==> s[p + |a|] == x[p + |a|];
    assert p + |a| == |x| ==> s[p + |a|] == c;
  }

  lemma InRight(word: char -> bool, x: string, c: char, y: string, a: string, p: nat)
    requires a != "" && !word(c) && p + |a| <= |y|
    ensures OccursAt(x + [c] + y, a, |x| + 1 + p) == OccursAt(y, a, p)
    ensures WholeAt(word, x + [c] + y, a, |x| + 1 + p) == WholeAt(word, y, a, p)
  {
    var s, q := x + [c] + y, |x| + 1 + p;
    assert s[q..q + |a|] == y[p..p + |a|];
    assert p > 0 ==> s[q - 1] == y[p - 1];
    assert p == 0 ==> s[q - 1] == c;
    assert p + |a| < |y| ==> s[q + |a|] == y[p + |a|];
  }

  // ----- Rewriting tokens twice ---------------------------------------------------------

  lemma {:induction false} WordPrefix(word: char -> bool, x: string, rest: string, run: string, g: string -> string)
    requires WordOnly(word, x)
    ensures OnTokens(word, x + rest, run, g) == OnTokens(word, rest, run + x, g)
    decreases |x|
  {
    if x == "" {
      assert x + rest == rest && run + x == run;
    } else {
      assert (x + rest)[1..] == x[1..] + rest && run + x == run + [x[0]] + x[1..];
      WordPrefix(word, x[1..], rest, run + [x[0]], g);
    }
  }

  /** If f keeps tokens inside the class, rewriting by f and then by g rewrites
      each token by both. */
  lemma {:induction false} TwoPasses(word: char -> bool, s: string, run: string, f: string -> string, g: string -> string)
    requires forall t :: WordOnly(word, t) ==> WordOnly(word, f(t))
    requires WordOnly(word, run)
    ensures OnTokens(word, OnTokens(word, s, run, f), "", g) == OnTokens(word, s, run, t => g(f(t)))
    decreases |s|
  {
    if s == "" {
      WordPrefix(word, f(run), "", "", g);
      assert f(run) + "" == f(run) && "" + f(run) == f(run);
    } else if word(s[0]) {
      TwoPasses(word, s[1..], run + [s[0]], f, g);
    } else {
      var rest := OnTokens(word, s[1..], "", f);
      assert f(run) + [s[0]] + rest == f(run) + ([s[0]] + rest);
      WordPrefix(word, f(run), [s[0]] + rest, "", g);
      assert "" + f(run) == f(run) && ([s[0]] + rest)[1..] == rest;
      TwoPasses(word, s[1..], "", f, g);
    }
  }

  /** Two rewritings that agree on every token of a clean text give the same text. */
  lemma {:induction false} SameOnClean(word: char -> bool, s: string, run: string, a: string, g: string -> string, h: string -> string)
    requires a != "" && Clean(word, s, run, a)
    requires forall t | t == a || Count(t, a) == 0 :: g(t) == h(t)
    ensures OnTokens(word, s, run, g) == OnTokens(word, s, run, h)
    decreases |s|
  {
    hide Count;
    if s != "" {
      SameOnClean(word, s[1..], if word(s[0]) then run + [s[0]] else "", a, g, h);
    }
  }

  // ----- Tokens and whole occurrences ------------------------------------------------------

  /** A whole occurrence is rewritten by itself, apart from what stands before and after it. */
  lemma {:induction false} OnPieces(word: char -> bool, x: string, a: string, y: string, run: string, f: string -> string)
    requires a != "" && WordOnly(word, a) && f("") == ""
    requires if x == "" then run == "" else !word(x[|x| - 1])
    requires y == "" || !word(y[0])
    ensures OnTokens(word, x + a + y, run, f) == OnTokens(word, x, run, f) + f(a) + OnTokens(word, y, "", f)
    decreases |x|
  {
    if x == "" {
      assert x + a + y == a + y && "" + a == a;
      WordPrefix(word, a, y, "", f);
      assert "" + f(a) == f(a);
      if y == "" {
        assert f(a) + "" == f(a);
      } else {
        var rest := OnTokens(word, y[1..], "", f);
        assert f(a) + [y[0]] + rest == f(a) + ("" + [y[0]] + rest);
      }
    } else {
      assert (x + a + y)[1..] == x[1..] + a + y;
      OnPieces(word, x[1..], a, y, if word(x[0]) then run + [x[0]] else "", f);
      if !word(x[0]) {
        var l, m, r := OnTokens(word, x[1..], "", f), f(a), OnTokens(word, y, "", f);
        assert f(run) + [x[0]] + (l + m + r) == f(run) + [x[0]] + l + m + r;
      }
    }
  }

  lemma WholeToken(word: char -> bool, run: string, a: string, q: nat)
    requires WordOnly(word, run) && a != "" && WholeAt(word, run, a, q)
    ensures a == run
  {
    assert q == 0 && |a| == |run| && run[0..|run|] == run;
  }

  lemma WholeOccurs(word: char -> bool, s: string, a: string, q: nat)
    requires WholeAt(word, s, a, q)
    ensures OccursAt(s, a, q) && q + |a| <= |s|
  {
  }

  /** Every whole occurrence is a token. */
  lemma {:induction false} TokensAre(word: char -> bool, s: string, run: string, p: string -> bool, a: string, q: nat)
    requires EachToken(word, s, run, p) && WordOnly(word, run) && a != "" && WordOnly(word, a)
    requires WholeAt(word, run + s, a, q)
    ensures p(a)
    decreases |s|
  {
    hide OccursAt, WholeAt;
    if s == "" {
      assert run + s == run;
      WholeToken(word, run, a, q);
    } else {
      NextToken(s, run);
      if word(s[0]) {
        TokensAre(word, s[1..], run + [s[0]], p, a, q);
      } else {
        WholeOccurs(word, run + [s[0]] + s[1..], a, q);
        NotAcross(word, run, s[0], s[1..], a, q);
        if q + |a| <= |run| {
          InLeft(word, run, s[0], s[1..], a, q);
          WholeToken(word, run, a, q);
        } else {
          InRight(word, run, s[0], s[1..], a, q - |run| - 1);
          assert "" + s[1..] == s[1..];
          TokensAre(word, s[1..], "", p, a, q - |run| - 1);
        }
      }
    }
  }

  /** Every token but the empty one is a whole occurrence. */
  lemma {:induction false} TokensOnly(word: char -> bool, s: string, run: string, p: string -> bool)
    requires WordOnly(word, run) && p("")
    requires forall a, q: nat | a != "" && WordOnly(word, a) && WholeAt(word, run + s, a, q) :: p(a)
    ensures EachToken(word, s, run, p)
    decreases |s|
  {
    if s == "" {
      assert run + s == run && run[0..|run|] == run;
      assert WholeAt(word, run + s, run, 0);
    } else {
      NextToken(s, run);
      if word(s[0]) {
        TokensOnly(word, s[1..], run + [s[0]], p);
      } else {
        var t := s[1..];
        assert (run + [s[0]] + t)[0..|run|] == run && (run + [s[0]] + t)[|run|] == s[0];
        assert WholeAt(word, run + s, run, 0);
        assert "" + t == t;
        forall a, q: nat | a != "" && WordOnly(word, a) && WholeAt(word, "" + t, a, q) ensures p(a) {
          InRight(word, run, s[0], t, a, q);
          assert WholeAt(word, run + s, a, |run| + 1 + q);
        }
        TokensOnly(word, t, "", p);
      }
    }
  }

  lemma {:induction false} EachPrefix(word: char -> bool, x: string, rest: string, run: string, p: string -> bool)
    requires WordOnly(word, x)
    ensures EachToken(word, x + rest, run, p) == EachToken(word, rest, run + x, p)
    decreases |x|
  {
    if x == "" {
      assert x + rest == rest && run + x == run;
    } else {
      assert (x + rest)[1..] == x[1..] + rest && run + x == run + [x[0]] + x[1..];
      EachPrefix(word, x[1..], rest, run + [x[0]], p);
    }
  }

  /** The tokens of a rewritten text are rewritten tokens. */
  lemma {:induction false} TokensAfter(word: char -> bool, s: string, run: string, f: string -> string, p: string -> bool)
    requires forall t | WordOnly(word, t) :: WordOnly(word, f(t)) && p(f(t))
    requires WordOnly(word, run)
    ensures EachToken(word, OnTokens(word, s, run, f), "", p)
    decreases |s|
  {
    if s == "" {
      EachPrefix(word, f(run), "", "", p);
      assert f(run) + "" == f(run) && "" + f(run) == f(run);
    } else if word(s[0]) {
      TokensAfter(word, s[1..], run + [s[0]], f, p);
    } else {
      var rest := OnTokens(word, s[1..], "", f);
      assert f(run) + [s[0]] + rest == f(run) + ([s[0]] + rest);
      EachPrefix(word, f(run), [s[0]] + rest, "", p);
      assert "" + f(run) == f(run) && ([s[0]] + rest)[1..] == rest;
      TokensAfter(word, s[1..], "", f, p);
    }
  }
}
