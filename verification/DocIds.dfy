/**
 Pointing a document's links and visible ids at copies (apps/opps/doc_ids.py,
 `retarget_requests`).
 */
module DocIds {
  import opened IdTokens

  datatype Link = Link(url: string, start: nat, end: nat, segment: string)

  datatype Doc = Doc(text: string, links: seq<Link>)

  /** The batch: link retargets by index range, and text replacements. */
  datatype Request =
    | UpdateLink(start: nat, end: nat, segment: string, url: string)
    | ReplaceText(id: string, copy: string)

  /** The ids to rewrite, and the character class of `\w` and '-'. */
  datatype Ids = Ids(copies: map<string, string>, word: char -> bool)

  /** Source ids are non-empty and of id characters, copies are of id
      characters, and no source id occurs inside a copy. */
  predicate Proper(ids: Ids) {
    (forall a | a in ids.copies :: a != "" && WordOnly(ids.word, a) && WordOnly(ids.word, ids.copies[a]))
    && (forall a, b | a in ids.copies && b in ids.copies :: Count(ids.copies[b], a) == 0)
  }

  /** A token's copy, if it is one of the chosen ids. */
  function Swap(ids: Ids, chosen: set<string>, t: string): string {
    if t in chosen && t in ids.copies then ids.copies[t] else t
  }

  /** One simultaneous substitution of whole ids. */
  function Rewritten(ids: Ids, chosen: set<string>, s: string): string {
    OnTokens(ids.word, s, "", t => Swap(ids, chosen, t))
  }

  function Linked(ids: Ids, link: Link): Link {
    link.(url := Rewritten(ids, ids.copies.Keys, link.url))
  }

  // ----- What the Docs API does with a batch -----------------------------------------

  function Applied(doc: Doc, r: Request): Doc
    requires r.ReplaceText? ==> r.id != ""
  {
    match r
    case UpdateLink(start, end, segment, url) =>
      doc.(links := seq(|doc.links|, i requires 0 <= i < |doc.links| =>
        var l := doc.links[i];
        if l.start == start && l.end == end && l.segment == segment then l.(url := url) else l))
    case ReplaceText(id, copy) => doc.(text := Replace(doc.text, id, copy))
  }

  predicate NamesIds(requests: seq<Request>) {
    forall i | 0 <= i < |requests| && requests[i].ReplaceText? :: requests[i].id != ""
  }

  function AppliedAll(doc: Doc, requests: seq<Request>): Doc
    requires NamesIds(requests)
  {
    if requests == [] then doc
    else Applied(AppliedAll(doc, requests[..|requests| - 1]), requests[|requests| - 1])
  }

  lemma AppliedSnoc(doc: Doc, requests: seq<Request>, r: Request)
    requires NamesIds(requests) && (r.ReplaceText? ==> r.id != "")
    ensures NamesIds(requests + [r]) && AppliedAll(doc, requests + [r]) == Applied(AppliedAll(doc, requests), r)
  {
    assert (requests + [r])[..|requests|] == requests;
  }

  // ----- One text replacement ---------------------------------------------------------

  /** Replacing a further id, one that the text has only whole. */
  lemma ReplaceMore(ids: Ids, chosen: set<string>, text: string, a: string)
    requires Proper(ids) && a in ids.copies && a !in chosen && chosen <= ids.copies.Keys
    requires AllWhole(ids.word, text, a)
    ensures Replace(Rewritten(ids, chosen, text), a, ids.copies[a]) == Rewritten(ids, chosen + {a}, text)
  {
    var f := t => Swap(ids, chosen, t);
    var b := ids.copies[a];
    var g := t requires a != "" => Replace(t, a, b);
    var h := t => Swap(ids, chosen + {a}, t);
    var once := Rewritten(ids, chosen, text);
    assert "" + once == once && "" + text == text;
    ReplaceByToken(ids.word, once, "", a, b);
    forall t | WordOnly(ids.word, t) ensures WordOnly(ids.word, f(t)) {
    }
    TwoPasses(ids.word, text, "", f, g);
    CleanIsWhole(ids.word, text, "", a);
    var both := t => g(f(t));
    forall t | t == a || Count(t, a) == 0 ensures both(t) == h(t) {
      SwapMore(ids, chosen, a, t);
    }
    SameOnClean(ids.word, text, "", a, both, h);
  }

  lemma SwapMore(ids: Ids, chosen: set<string>, a: string, t: string)
    requires Proper(ids) && a in ids.copies && a !in chosen && chosen <= ids.copies.Keys
    requires t == a || Count(t, a) == 0
    ensures Replace(Swap(ids, chosen, t), a, ids.copies[a]) == Swap(ids, chosen + {a}, t)
  {
    if t in chosen {
      ReplaceNone(ids.copies[t], a, ids.copies[a]);
    } else if t == a {
      ReplaceSelf(a, ids.copies[a]);
    } else {
      ReplaceNone(t, a, ids.copies[a]);
    }
  }

  // ----- Building the batch -------------------------------------------------------------

  /** No token of the text is one of the ids. */
  predicate Untouched(ids: Ids, s: string) {
    EachToken(ids.word, s, "", t => t !in ids.copies)
  }

  lemma {:induction false} NoTokenNoChange(word: char -> bool, s: string, run: string, p: string -> bool, f: string -> string)
    requires EachToken(word, s, run, p) && forall t | p(t) :: f(t) == t
    ensures OnTokens(word, s, run, f) == run + s
    decreases |s|
  {
    if s == "" {
      assert run + s == run;
    } else {
      NextToken(s, run);
      NoTokenNoChange(word, s[1..], if word(s[0]) then run + [s[0]] else "", p, f);
      assert "" + s[1..] == s[1..];
    }
  }

  lemma UntouchedSame(ids: Ids, link: Link)
    requires Untouched(ids, link.url)
    ensures Linked(ids, link) == link
  {
    NoTokenNoChange(ids.word, link.url, "", t => t !in ids.copies, t => Swap(ids, ids.copies.Keys, t));
    assert "" + link.url == link.url;
  }

  predicate DistinctRanges(links: seq<Link>) {
    forall i, j | 0 <= i < j < |links| ::
      links[i].start != links[j].start || links[i].end != links[j].end || links[i].segment != links[j].segment
  }

  /** The first n links rewritten. */
  function LinkedUpTo(ids: Ids, links: seq<Link>, n: nat): (r: seq<Link>)
    ensures |r| == |links|
  {
    seq(|links|, i requires 0 <= i < |links| => if i < n then Linked(ids, links[i]) else links[i])
  }

  lemma LinkUpdated(ids: Ids, text: string, links: seq<Link>, n: nat)
    requires n < |links| && DistinctRanges(links)
    ensures var l := links[n];
            Applied(Doc(text, LinkedUpTo(ids, links, n)), UpdateLink(l.start, l.end, l.segment, Linked(ids, l).url))
            == Doc(text, LinkedUpTo(ids, links, n + 1))
    ensures Untouched(ids, links[n].url) ==> LinkedUpTo(ids, links, n) == LinkedUpTo(ids, links, n + 1)
  {
    hide Rewritten, Untouched;
    if Untouched(ids, links[n].url) {
      UntouchedSame(ids, links[n]);
    }
    var l := links[n];
    var after := Applied(Doc(text, LinkedUpTo(ids, links, n)), UpdateLink(l.start, l.end, l.segment, Linked(ids, l).url)).links;
    forall i | 0 <= i < |links| ensures after[i] == LinkedUpTo(ids, links, n + 1)[i] {
    }
    assert after == LinkedUpTo(ids, links, n + 1);
  }

  /** `finditer` over the text: the whole ids in order of first appearance, with their counts. */
  method FindWhole(ids: Ids, text: string) returns (order: seq<string>, whole: map<string, nat>)
    ensures forall i, j | 0 <= i < j < |order| :: order[i] != order[j]
    ensures forall id :: id in order <==> id in ids.copies && Hits(ids.word, text, "", id) > 0
    ensures forall id | id in order :: id in whole && whole[id] == Hits(ids.word, text, "", id)
  {
    hide *;
    order, whole := [], map[];
    var rest, run := text, "";
    CountsStart(ids, text);
    while rest != ""
      invariant Counted(ids, text, rest, run, order, whole)
      decreases |rest|
    {
      CountsStep(ids, text, rest, run, order, whole);
      if ids.word(rest[0]) {
        run := run + [rest[0]];
      } else {
        if run in ids.copies {
          order, whole := Noted(order, whole, run).0, Noted(order, whole, run).1;
        }
        run := "";
      }
      rest := rest[1..];
    }
    CountsEnd(ids, text, run, order, whole);
    if run in ids.copies {
      order, whole := Noted(order, whole, run).0, Noted(order, whole, run).1;
    }
  }

  lemma CountsStart(ids: Ids, text: string)
    ensures Counted(ids, text, text, "", [], map[])
  {
    hide Hits;
  }

  lemma CountsStep(ids: Ids, text: string, rest: string, run: string, order: seq<string>, whole: map<string, nat>)
    requires rest != "" && Counted(ids, text, rest, run, order, whole)
    ensures if ids.word(rest[0]) then Counted(ids, text, rest[1..], run + [rest[0]], order, whole)
            else if run in ids.copies then Counted(ids, text, rest[1..], "", Noted(order, whole, run).0, Noted(order, whole, run).1)
            else Counted(ids, text, rest[1..], "", order, whole)
  {
    forall id ensures Hits(ids.word, rest, run, id) ==
                      if ids.word(rest[0]) then Hits(ids.word, rest[1..], run + [rest[0]], id)
                      else (if run == id then 1 else 0) + Hits(ids.word, rest[1..], "", id) {
    }
    hide Hits;
    if !ids.word(rest[0]) && run in ids.copies {
      NotedKeeps(order, whole, run);
    }
  }

  lemma NotedKeeps(order: seq<string>, whole: map<string, nat>, id: string)
    requires forall i, j | 0 <= i < j < |order| :: order[i] != order[j]
    requires forall id :: id in order <==> id in whole
    ensures var (order', whole') := Noted(order, whole, id);
            (forall i, j | 0 <= i < j < |order'| :: order'[i] != order'[j]) && (forall id :: id in order' <==> id in whole')
            && (forall x :: x in whole' <==> x in whole || x == id)
            && (forall x :: CountOf(whole', x) == CountOf(whole, x) + if x == id then 1 else 0)
  {
  }

  lemma CountsEnd(ids: Ids, text: string, run: string, order: seq<string>, whole: map<string, nat>)
    requires Counted(ids, text, "", run, order, whole)
    ensures var (order', whole') := if run in ids.copies then Noted(order, whole, run) else (order, whole);
            (forall i, j | 0 <= i < j < |order'| :: order'[i] != order'[j])
            && (forall id :: id in order' <==> id in ids.copies && Hits(ids.word, text, "", id) > 0)
            && (forall id | id in order' :: id in whole' && whole'[id] == Hits(ids.word, text, "", id))
  {
    forall id ensures Hits(ids.word, "", run, id) == if run == id then 1 else 0 {
    }
    hide Hits;
    NotedKeeps(order, whole, run);
    hide Noted;
  }

  function CountOf(whole: map<string, nat>, id: string): nat {
    if id in whole then whole[id] else 0
  }

  function Noted(order: seq<string>, whole: map<string, nat>, id: string): (seq<string>, map<string, nat>) {
    (if id in whole then order else order + [id], whole[id := CountOf(whole, id) + 1])
  }

  ghost predicate Counted(ids: Ids, text: string, rest: string, run: string, order: seq<string>, whole: map<string, nat>) {
    (forall i, j | 0 <= i < j < |order| :: order[i] != order[j])
    && (forall id :: id in order <==> id in whole)
    && (forall id | id in whole :: id in ids.copies && whole[id] > 0)
    && (forall id | id in ids.copies :: Hits(ids.word, text, "", id) == CountOf(whole, id) + Hits(ids.word, rest, run, id))
  }

  /** The ids the text replacement rewrites: those that occur, and only whole. */
  ghost function Chosen(ids: Ids, text: string): set<string> {
    set id | id in ids.copies && Hits(ids.word, text, "", id) > 0 && AllWhole(ids.word, text, id)
  }

  /** `retarget_requests`: running its requests in order rewrites every whole id
      in every link, substitutes the chosen ids in the text all at once, and
      changes nothing else. */
  method Retarget(doc: Doc, ids: Ids) returns (requests: seq<Request>)
    requires Proper(ids) && DistinctRanges(doc.links)
    ensures NamesIds(requests)
    ensures AppliedAll(doc, requests) ==
            Doc(Rewritten(ids, Chosen(ids, doc.text), doc.text), LinkedUpTo(ids, doc.links, |doc.links|))
    ensures var after := AppliedAll(doc, requests);
            Retargeted(ids, doc.links, after.links) && (NoWholeId(ids, doc.text) ==> after.text == doc.text)
  {
    hide *;
    requests := [];
    Unchanged(ids, doc);
    for n := 0 to |doc.links|
      invariant NamesIds(requests) && AppliedAll(doc, requests) == Doc(doc.text, LinkedUpTo(ids, doc.links, n))
    {
      var l := doc.links[n];
      LinkUpdated(ids, doc.text, doc.links, n);
      if !Untouched(ids, l.url) {
        var r := UpdateLink(l.start, l.end, l.segment, Linked(ids, l).url);
        OneMore(doc, requests, r);
        requests := requests + [r];
      }
    }
    var links := LinkedUpTo(ids, doc.links, |doc.links|);
    var order, whole := FindWhole(ids, doc.text);
    ghost var chosen: set<string> := {};
    NothingChosen(ids, doc.text);
    for k := 0 to |order|
      invariant NamesIds(requests) && AppliedAll(doc, requests) == Doc(Rewritten(ids, chosen, doc.text), links)
      invariant chosen <= ids.copies.Keys
      invariant forall id :: id in chosen <==> id in order[..k] && AllWhole(ids.word, doc.text, id)
    {
      var id := order[k];
      assert id in order && order[..k + 1] == order[..k] + [id];
      GuardIs(ids, doc.text, id);
      if Count(doc.text, id) == whole[id] {
        var r := ReplaceText(id, ids.copies[id]);
        ReplaceMore(ids, chosen, doc.text, id);
        OneMore(doc, requests, r);
        TextReplaced(Rewritten(ids, chosen, doc.text), links, r);
        requests := requests + [r];
        chosen := chosen + {id};
      }
    }
    assert order[..|order|] == order;
    ChosenIs(ids, doc.text, chosen);
    LinksRetargeted(ids, doc.links);
    TextLaws(ids, Chosen(ids, doc.text), doc.text);
  }

  lemma Unchanged(ids: Ids, doc: Doc)
    ensures NamesIds([]) && AppliedAll(doc, []) == Doc(doc.text, LinkedUpTo(ids, doc.links, 0))
  {
    assert LinkedUpTo(ids, doc.links, 0) == doc.links;
  }

  lemma NothingChosen(ids: Ids, text: string)
    ensures Rewritten(ids, {}, text) == text
  {
    EveryToken(ids.word, text, "");
    NoTokenNoChange(ids.word, text, "", t => true, t => Swap(ids, {}, t));
    assert "" + text == text;
  }

  lemma {:induction false} EveryToken(word: char -> bool, s: string, run: string)
    ensures EachToken(word, s, run, t => true)
    decreases |s|
  {
    if s != "" {
      EveryToken(word, s[1..], if word(s[0]) then run + [s[0]] else "");
    }
  }

  lemma OneMore(doc: Doc, requests: seq<Request>, r: Request)
    requires NamesIds(requests) && (r.ReplaceText? ==> r.id != "")
    ensures NamesIds(requests + [r]) && AppliedAll(doc, requests + [r]) == Applied(AppliedAll(doc, requests), r)
  {
    AppliedSnoc(doc, requests, r);
    hide Applied, AppliedAll;
  }

  lemma TextReplaced(text: string, links: seq<Link>, r: Request)
    requires r.ReplaceText? && r.id != ""
    ensures Applied(Doc(text, links), r) == Doc(Replace(text, r.id, r.copy), links)
  {
  }

  /** The count test is the whole-occurrence test. */
  lemma GuardIs(ids: Ids, text: string, id: string)
    requires Proper(ids) && id in ids.copies
    ensures id != "" && (Count(text, id) == Hits(ids.word, text, "", id) <==> AllWhole(ids.word, text, id))
  {
    hide Count, Hits, Clean, AllWhole;
    CountsAgree(ids.word, text, "", id);
    CleanIsWhole(ids.word, text, "", id);
    assert "" + text == text;
  }

  lemma ChosenIs(ids: Ids, text: string, chosen: set<string>)
    requires forall id :: id in chosen <==> id in ids.copies && Hits(ids.word, text, "", id) > 0 && AllWhole(ids.word, text, id)
    ensures chosen == Chosen(ids, text)
  {
    hide AllWhole, Hits;
  }

  /** A source id is rewritten in the text exactly when it occurs there and
      every one of its occurrences is a whole id. */
  lemma ChosenMeans(ids: Ids, text: string, id: string)
    requires Proper(ids) && id in ids.copies
    ensures id in Chosen(ids, text) <==> Occurs(text, id) && AllWhole(ids.word, text, id)
  {
    hide Proper, Count, Hits, AllWhole, Occurs;
    GuardIs(ids, text, id);
    CountZero(text, id);
  }

  // ----- What the rewriting comes to ----------------------------------------------------------

  ghost predicate NoWholeId(ids: Ids, s: string) {
    forall a, p: nat | a in ids.copies :: !WholeAt(ids.word, s, a, p)
  }

  /** Links keep their ranges and segments; in their urls no source id stands whole
      any more, a whole id has become its copy between what stands before and
      after it, and a url without whole ids is as it was. */
  ghost predicate Retargeted(ids: Ids, links: seq<Link>, after: seq<Link>) {
    |after| == |links|
    && (forall i | 0 <= i < |links| :: after[i] == links[i].(url := after[i].url) && NoWholeId(ids, after[i].url))
    && (forall i, x, a, y | 0 <= i < |links| && links[i].url == x + a + y && Stands(ids, x, a, y) ::
          exists x', y' :: after[i].url == x' + ids.copies[a] + y' && Becomes(ids, x, x') && Becomes(ids, y, y'))
    && forall i | 0 <= i < |links| && NoWholeId(ids, links[i].url) :: after[i].url == links[i].url
  }

  /** A source id between x and y, where it is a whole id. */
  predicate Stands(ids: Ids, x: string, a: string, y: string) {
    a in ids.copies && (x == "" || !ids.word(x[|x| - 1])) && (y == "" || !ids.word(y[0]))
  }

  /** What a url that reads s would become. */
  ghost predicate Becomes(ids: Ids, s: string, t: string) {
    t == Rewritten(ids, ids.copies.Keys, s)
  }

  lemma LinksRetargeted(ids: Ids, links: seq<Link>)
    requires Proper(ids)
    ensures Retargeted(ids, links, LinkedUpTo(ids, links, |links|))
  {
    hide Proper, Rewritten, NoWholeId;
    var after := LinkedUpTo(ids, links, |links|);
    forall i | 0 <= i < |links|
      ensures after[i] == links[i].(url := after[i].url) && NoWholeId(ids, after[i].url)
      ensures NoWholeId(ids, links[i].url) ==> after[i].url == links[i].url
    {
      NoneLeft(ids, links[i].url);
      TextLaws(ids, ids.copies.Keys, links[i].url);
    }
    forall i, x, a, y | 0 <= i < |links| && links[i].url == x + a + y && Stands(ids, x, a, y)
      ensures exists x', y' :: after[i].url == x' + ids.copies[a] + y' && Becomes(ids, x, x') && Becomes(ids, y, y')
    {
      Pieces(ids, ids.copies.Keys, x, a, y);
      StandsIn(ids, x, a, y);
      var x', y' := Rewritten(ids, ids.copies.Keys, x), Rewritten(ids, ids.copies.Keys, y);
      assert Becomes(ids, x, x') && Becomes(ids, y, y');
    }
  }

  lemma StandsIn(ids: Ids, x: string, a: string, y: string)
    requires Stands(ids, x, a, y)
    ensures a in ids.copies
  {
  }

  /** A whole id is substituted on its own: by its copy if it is chosen. */
  lemma Pieces(ids: Ids, chosen: set<string>, x: string, a: string, y: string)
    requires Proper(ids) && Stands(ids, x, a, y)
    ensures Rewritten(ids, chosen, x + a + y) ==
            Rewritten(ids, chosen, x) + (if a in chosen then ids.copies[a] else a) + Rewritten(ids, chosen, y)
  {
    OnPieces(ids.word, x, a, y, "", t => Swap(ids, chosen, t));
  }

  /** A text without whole ids stays as it is. */
  lemma TextLaws(ids: Ids, chosen: set<string>, s: string)
    requires Proper(ids)
    ensures NoWholeId(ids, s) ==> Rewritten(ids, chosen, s) == s
  {
    if NoWholeId(ids, s) {
      assert "" + s == s;
      TokensOnly(ids.word, s, "", t => t !in ids.copies);
      NoTokenNoChange(ids.word, s, "", t => t !in ids.copies, t => Swap(ids, chosen, t));
    }
  }

  /** No source id is left standing whole. */
  lemma NoneLeft(ids: Ids, s: string)
    requires Proper(ids)
    ensures NoWholeId(ids, Rewritten(ids, ids.copies.Keys, s))
  {
    var f, p := t => Swap(ids, ids.copies.Keys, t), t => t !in ids.copies;
    forall t | WordOnly(ids.word, t) ensures WordOnly(ids.word, f(t)) && p(f(t)) {
      if t in ids.copies && ids.copies[t] in ids.copies {
        ReplaceSelf(ids.copies[t], "");
      }
    }
    TokensAfter(ids.word, s, "", f, p);
    var after := Rewritten(ids, ids.copies.Keys, s);
    assert "" + after == after;
    forall a, q: nat | a in ids.copies ensures !WholeAt(ids.word, after, a, q) {
      if WholeAt(ids.word, after, a, q) {
        TokensAre(ids.word, after, "", p, a, q);
      }
    }
  }
}
