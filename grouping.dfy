/**
 * The platform grouping and the response sections shared by the analysis
 * prompt builders: responses are grouped into an insertion-ordered
 * dictionary keyed by platform, then each group is written out as a
 * platform header followed by numbered question/answer entries.
 */
module ResponseGrouping {
  import opened Wrappers
  import opened Text

  /** One response dict handed to a prompt builder: `platform`, `prompt_text` and `response`. */
  datatype Exchange = Exchange(platform: string, promptText: string, response: string)

  /** `{"question": ..., "answer": ...}` */
  datatype QA = QA(question: string, answer: string)

  /** `platform_data`: an insertion-ordered dictionary from platform to its questions and answers. */
  type Groups = seq<(string, seq<QA>)>

  function QAOf(r: Exchange): QA {
    QA(r.promptText, r.response)
  }

  function Keys(g: Groups): (ks: seq<string>)
    ensures |ks| == |g| && forall j :: 0 <= j < |g| ==> ks[j] == g[j].0
  {
    seq(|g|, j requires 0 <= j < |g| => g[j].0)
  }

  function Platforms(rs: seq<Exchange>): (ps: seq<string>)
    ensures |ps| == |rs| && forall i :: 0 <= i < |rs| ==> ps[i] == rs[i].platform
  {
    seq(|rs|, i requires 0 <= i < |rs| => rs[i].platform)
  }

  predicate DistinctKeys(g: Groups) {
    forall j1, j2 :: 0 <= j1 < j2 < |g| ==> g[j1].0 != g[j2].0
  }

  /** `if platform not in platform_data: platform_data[platform] = []` */
  function EnsureKey(g: Groups, k: string): Groups {
    if k in Keys(g) then g else g + [(k, [])]
  }

  /** `platform_data[k].append(qa)` */
  function AppendTo(g: Groups, k: string, qa: QA): (r: Groups)
    ensures |r| == |g| && Keys(r) == Keys(g)
  {
    seq(|g|, j requires 0 <= j < |g| => if g[j].0 == k then (k, g[j].1 + [qa]) else g[j])
  }

  /** The dictionary after the loop over `rs`. */
  function Grouped(rs: seq<Exchange>): Groups {
    if rs == [] then []
    else
      var r := rs[|rs| - 1];
      AppendTo(EnsureKey(Grouped(rs[..|rs| - 1]), r.platform), r.platform, QAOf(r))
  }

  /** The grouping loop of the prompt builders. */
  method GroupByPlatform(rs: seq<Exchange>) returns (g: Groups)
    ensures g == Grouped(rs)
  {
    g := [];
    for i := 0 to |rs|
      invariant g == Grouped(rs[..i])
    {
      assert rs[..i + 1][..i] == rs[..i];
      var r := rs[i];
      if r.platform !in Keys(g) {
        g := g + [(r.platform, [])];
      }
      g := AppendTo(g, r.platform, QAOf(r));
    }
    assert rs[..|rs|] == rs;
  }

  // ---------------------------------------------------------------------------
  // What the grouping computes
  // ---------------------------------------------------------------------------

  /** The questions and answers of the responses on platform `k`, in order. */
  function QAsFor(rs: seq<Exchange>, k: string): seq<QA> {
    if rs == [] then []
    else QAsFor(rs[..|rs| - 1], k) + (if rs[|rs| - 1].platform == k then [QAOf(rs[|rs| - 1])] else [])
  }

  /** Some response on platform `a` comes before every response on platform `b`. */
  predicate SeenBefore(rs: seq<Exchange>, a: string, b: string) {
    exists i :: 0 <= i < |rs| && rs[i].platform == a && forall i' :: 0 <= i' <= i ==> rs[i'].platform != b
  }

  /** How many questions the groups hold in all. */
  function TotalQAs(g: Groups): nat {
    if g == [] then 0 else TotalQAs(g[..|g| - 1]) + |g[|g| - 1].1|
  }

  /** The keys are the platforms of the responses, each once. */
  lemma {:induction false} GroupedKeys(rs: seq<Exchange>)
    ensures DistinctKeys(Grouped(rs))
    ensures forall k :: k in Keys(Grouped(rs)) <==> k in Platforms(rs)
  {
    if rs != [] {
      var p := rs[..|rs| - 1];
      var r := rs[|rs| - 1];
      assert rs == p + [r];
      GroupedKeys(p);
      var e := EnsureKey(Grouped(p), r.platform);
      EnsureKeyFacts(Grouped(p), r.platform);
      assert Keys(Grouped(rs)) == Keys(e);
      SameKeysDistinct(e, Grouped(rs));
      PlatformsSnoc(rs, p, r);
    }
  }

  lemma PlatformsSnoc(rs: seq<Exchange>, p: seq<Exchange>, r: Exchange)
    requires rs == p + [r]
    ensures forall k :: k in Platforms(rs) <==> k in Platforms(p) || k == r.platform
  {
    assert Platforms(rs) == Platforms(p) + [r.platform];
  }

  lemma EnsureKeyFacts(g: Groups, k: string)
    requires DistinctKeys(g)
    ensures DistinctKeys(EnsureKey(g, k))
    ensures forall x :: x in Keys(EnsureKey(g, k)) <==> x in Keys(g) || x == k
  {
    if k !in Keys(g) {
      assert Keys(EnsureKey(g, k)) == Keys(g) + [k];
    }
  }

  lemma SameKeysDistinct(g: Groups, h: Groups)
    requires Keys(g) == Keys(h) && DistinctKeys(g)
    ensures DistinctKeys(h)
  {
    forall j1, j2 | 0 <= j1 < j2 < |h|
      ensures h[j1].0 != h[j2].0
    {
      assert Keys(h)[j1] == g[j1].0 && Keys(h)[j2] == g[j2].0;
    }
  }

  lemma {:induction false} QAsForAbsent(rs: seq<Exchange>, k: string)
    requires k !in Platforms(rs)
    ensures QAsFor(rs, k) == []
  {
    if rs != [] {
      var p := rs[..|rs| - 1];
      assert Platforms(p) == Platforms(rs)[..|rs| - 1];
      QAsForAbsent(p, k);
    }
  }

  /** Each group holds exactly the questions and answers of its platform's responses, in order. */
  lemma {:induction false} GroupedContents(rs: seq<Exchange>)
    ensures forall j :: 0 <= j < |Grouped(rs)| ==> Grouped(rs)[j].1 == QAsFor(rs, Grouped(rs)[j].0)
  {
    if rs != [] {
      var p := rs[..|rs| - 1];
      var r := rs[|rs| - 1];
      GroupedContents(p);
      GroupedKeys(p);
      var g := Grouped(p);
      var e := EnsureKey(g, r.platform);
      forall j | 0 <= j < |Grouped(rs)|
        ensures Grouped(rs)[j].1 == QAsFor(rs, Grouped(rs)[j].0)
      {
        if j == |g| {
          assert r.platform !in Platforms(p);
          QAsForAbsent(p, r.platform);
        }
      }
    }
  }

  /** The groups appear in the order their platforms first appear. */
  lemma {:induction false} GroupedOrder(rs: seq<Exchange>)
    ensures forall j1, j2 :: 0 <= j1 < j2 < |Grouped(rs)| ==> SeenBefore(rs, Grouped(rs)[j1].0, Grouped(rs)[j2].0)
  {
    if rs != [] {
      var p := rs[..|rs| - 1];
      var r := rs[|rs| - 1];
      GroupedOrder(p);
      GroupedKeys(p);
      var g := Grouped(p);
      var ks := Keys(Grouped(rs));
      assert Keys(Grouped(rs)) == Keys(EnsureKey(g, r.platform));
      assert forall j :: 0 <= j < |g| ==> ks[j] == g[j].0;
      forall j1, j2 | 0 <= j1 < j2 < |Grouped(rs)|
        ensures SeenBefore(rs, Grouped(rs)[j1].0, Grouped(rs)[j2].0)
      {
        assert ks[j1] == Grouped(rs)[j1].0 && ks[j2] == Grouped(rs)[j2].0;
        if j2 < |g| {
          SeenBeforeExtend(rs, p, g[j1].0, g[j2].0);
        } else {
          assert j2 == |g| && ks[j2] == r.platform;
          assert g[j1].0 in Keys(g);
          SeenBeforeNew(rs, p, g[j1].0, r.platform);
        }
      }
    }
  }

  lemma SeenBeforeExtend(rs: seq<Exchange>, p: seq<Exchange>, a: string, b: string)
    requires |rs| > 0 && p == rs[..|rs| - 1]
    requires SeenBefore(p, a, b)
    ensures SeenBefore(rs, a, b)
  {
    var i :| 0 <= i < |p| && p[i].platform == a && forall i' :: 0 <= i' <= i ==> p[i'].platform != b;
    assert rs[i] == p[i];
    assert forall i' :: 0 <= i' <= i ==> rs[i'] == p[i'];
  }

  lemma SeenBeforeNew(rs: seq<Exchange>, p: seq<Exchange>, a: string, b: string)
    requires |rs| > 0 && p == rs[..|rs| - 1]
    requires a in Platforms(p) && b !in Platforms(p)
    ensures SeenBefore(rs, a, b)
  {
    var ps := Platforms(p);
    var i :| 0 <= i < |p| && ps[i] == a;
    assert rs[i].platform == a;
    forall i' | 0 <= i' <= i
      ensures rs[i'].platform != b
    {
      assert rs[i'].platform == ps[i'];
    }
  }

  lemma {:induction false} TotalAppendTo(g: Groups, k: string, qa: QA)
    requires DistinctKeys(g) && k in Keys(g)
    ensures TotalQAs(AppendTo(g, k, qa)) == TotalQAs(g) + 1
    decreases |g|
  {
    var n := |g|;
    var a := AppendTo(g, k, qa);
    assert AppendTo(g[..n - 1], k, qa) == a[..n - 1];
    if g[n - 1].0 == k {
      assert k !in Keys(g[..n - 1]);
      TotalUnchanged(g[..n - 1], k, qa);
    } else {
      assert k in Keys(g[..n - 1]) by {
        var j :| 0 <= j < n && Keys(g)[j] == k;
        assert Keys(g[..n - 1])[j] == k;
      }
      TotalAppendTo(g[..n - 1], k, qa);
    }
  }

  lemma {:induction false} TotalUnchanged(g: Groups, k: string, qa: QA)
    requires k !in Keys(g)
    ensures AppendTo(g, k, qa) == g
  {
    assert forall j :: 0 <= j < |g| ==> g[j].0 == Keys(g)[j];
  }

  /** Every response lands in one group: the groups hold as many entries as there are responses. */
  lemma {:induction false} GroupedTotal(rs: seq<Exchange>)
    ensures TotalQAs(Grouped(rs)) == |rs|
  {
    if rs != [] {
      var p := rs[..|rs| - 1];
      var r := rs[|rs| - 1];
      GroupedTotal(p);
      GroupedKeys(p);
      var g := Grouped(p);
      var e := EnsureKey(g, r.platform);
      if r.platform !in Keys(g) {
        assert e[..|g|] == g;
        assert DistinctKeys(e);
        assert Keys(e)[|g|] == r.platform;
      }
      TotalAppendTo(e, r.platform, QAOf(r));
    }
  }

  /** There are no groups exactly when there are no responses. */
  lemma GroupedEmpty(rs: seq<Exchange>)
    ensures Grouped(rs) == [] <==> rs == []
  {
    GroupedTotal(rs);
  }

  // ---------------------------------------------------------------------------
  // The response sections
  // ---------------------------------------------------------------------------

  /** The slices applied to platforms, questions and answers (none for an unbounded field). */
  datatype Limits = Limits(platform: Option<nat>, question: Option<nat>, answer: Option<nat>)

  const NoLimits := Limits(None, None, None)

  /** `s[:limit]`, or `s` itself with no limit. */
  function Cut(s: string, limit: Option<nat>): (r: string)
    ensures |r| <= |s| && r == s[..|r|]
    ensures limit.Some? ==> |r| == Min(|s|, limit.value)
    ensures limit.None? ==> r == s
  {
    if limit.Some? && limit.value < |s| then s[..limit.value] else s
  }

  function Min(a: int, b: int): int {
    if a < b then a else b
  }

  /** One `Query #i` / `Prompt #i` entry as embedded. */
  datatype Query = Query(number: nat, question: string, answer: string)

  /** One platform's part of the prompt. */
  datatype Section = Section(platform: string, queries: seq<Query>)

  function Queries(qas: seq<QA>, limits: Limits): seq<Query> {
    seq(|qas|, i requires 0 <= i < |qas| =>
      Query(i + 1, Cut(qas[i].question, limits.question), Cut(qas[i].answer, limits.answer)))
  }

  function Sections(g: Groups, limits: Limits): seq<Section> {
    seq(|g|, j requires 0 <= j < |g| => Section(Cut(g[j].0, limits.platform), Queries(g[j].1, limits)))
  }

  /**
   * One section per group, in the groups' order; each group's entries are
   * numbered from 1 and each embedded field is the field cut to its limit.
   */
  lemma SectionsFacts(g: Groups, limits: Limits)
    ensures |Sections(g, limits)| == |g|
    ensures forall j :: 0 <= j < |g| ==>
      var s := Sections(g, limits)[j];
      && s.platform == Cut(g[j].0, limits.platform)
      && |s.queries| == |g[j].1|
      && forall i :: 0 <= i < |g[j].1| ==>
           s.queries[i] == Query(i + 1, Cut(g[j].1[i].question, limits.question), Cut(g[j].1[i].answer, limits.answer))
    ensures forall j :: 0 <= j < |g| && limits.platform.Some? ==> |Sections(g, limits)[j].platform| <= limits.platform.value
    ensures forall j, i :: 0 <= j < |g| && 0 <= i < |Sections(g, limits)[j].queries| ==>
      var q := Sections(g, limits)[j].queries[i];
      && q.number == i + 1
      && (limits.question.Some? ==> |q.question| <= limits.question.value)
      && (limits.answer.Some? ==> |q.answer| <= limits.answer.value)
  {
  }

  function QueryText(word: string, q: Query): string {
    "\n" + word + " #" + IntToString(q.number) + ":\n" + "Q: " + q.question + "\n" + "A: " + q.answer + "\n"
  }

  function QueriesText(word: string, qs: seq<Query>): string {
    if qs == [] then "" else QueriesText(word, qs[..|qs| - 1]) + QueryText(word, qs[|qs| - 1])
  }

  function SectionHeader(platform: string): string {
    "\n=== Platform: " + platform + " ===\n"
  }

  function SectionsText(word: string, ss: seq<Section>): string {
    if ss == [] then ""
    else SectionsText(word, ss[..|ss| - 1]) + SectionHeader(ss[|ss| - 1].platform) + QueriesText(word, ss[|ss| - 1].queries)
  }

  /** The text of a run of entries is the text of its parts one after the other. */
  lemma {:induction false} QueriesTextAppend(word: string, a: seq<Query>, b: seq<Query>)
    ensures QueriesText(word, a + b) == QueriesText(word, a) + QueriesText(word, b)
    decreases |b|
  {
    if b == [] {
      assert a + b == a;
    } else {
      var b', last := b[..|b| - 1], b[|b| - 1];
      assert (a + b)[..|a + b| - 1] == a + b' && (a + b)[|a + b| - 1] == last;
      assert QueriesText(word, a + b) == QueriesText(word, a + b') + QueryText(word, last);
      assert QueriesText(word, b) == QueriesText(word, b') + QueryText(word, last);
      QueriesTextAppend(word, a, b');
      AppendAssociates(QueriesText(word, a), QueriesText(word, b'), QueryText(word, last));
    }
  }

  /** The text of a run of sections is the text of its parts one after the other. */
  lemma {:induction false} SectionsTextAppend(word: string, a: seq<Section>, b: seq<Section>)
    ensures SectionsText(word, a + b) == SectionsText(word, a) + SectionsText(word, b)
    decreases |b|
  {
    if b == [] {
      assert a + b == a;
    } else {
      var b', last := b[..|b| - 1], b[|b| - 1];
      var piece := SectionHeader(last.platform) + QueriesText(word, last.queries);
      assert b == b' + [last];
      assert a + b == (a + b') + [last];
      SectionsTextSplit(word, a + b, a + b', last);
      SectionsTextSplit(word, b, b', last);
      SectionsTextAppend(word, a, b');
      AppendAssociates(SectionsText(word, a), SectionsText(word, b'), piece);
    }
  }

  lemma SectionsTextSplit(word: string, ss: seq<Section>, front: seq<Section>, last: Section)
    requires ss == front + [last]
    ensures SectionsText(word, ss) == SectionsText(word, front) + (SectionHeader(last.platform) + QueriesText(word, last.queries))
  {
    assert ss[..|ss| - 1] == front && ss[|ss| - 1] == last;
  }

  lemma AppendAssociates(x: string, a: string, b: string)
    ensures x + a + b == x + (a + b)
  {
  }

  /** The inner `+=` loop: the numbered entries of one group, appended to `text0`. */
  method AppendQueries(text0: string, qas: seq<QA>, limits: Limits, word: string) returns (text: string)
    ensures text == text0 + QueriesText(word, Queries(qas, limits))
  {
    var qs := Queries(qas, limits);
    text := text0;
    for i := 0 to |qas|
      invariant text == text0 + QueriesText(word, qs[..i])
    {
      var question := Cut(qas[i].question, limits.question);
      var answer := Cut(qas[i].answer, limits.answer);
      ghost var before := text;
      text := text + ("\n" + word + " #" + IntToString(i + 1) + ":\n");
      text := text + ("Q: " + question + "\n");
      text := text + ("A: " + answer + "\n");
      QueryTextOfEntry(before, text, word, qs[i], i + 1, question, answer);
      QueriesTextStep(word, qs, i);
      AppendAssociates(text0, QueriesText(word, qs[..i]), QueryText(word, qs[i]));
    }
    assert qs[..|qas|] == qs;
  }

  lemma QueryTextOfEntry(before: string, text: string, word: string, q: Query, n: nat, question: string, answer: string)
    requires q == Query(n, question, answer)
    requires text == before + ("\n" + word + " #" + IntToString(n) + ":\n") + ("Q: " + question + "\n") + ("A: " + answer + "\n")
    ensures text == before + QueryText(word, q)
  {
  }

  lemma QueriesTextStep(word: string, qs: seq<Query>, i: nat)
    requires i < |qs|
    ensures QueriesText(word, qs[..i + 1]) == QueriesText(word, qs[..i]) + QueryText(word, qs[i])
  {
    assert qs[..i + 1][..i] == qs[..i];
  }

  /** The `+=` loops that write out the groups. */
  method RenderSections(g: Groups, limits: Limits, word: string) returns (text: string)
    ensures text == SectionsText(word, Sections(g, limits))
  {
    var ss := Sections(g, limits);
    text := "";
    for j := 0 to |g|
      invariant text == SectionsText(word, ss[..j])
    {
      ghost var before := text;
      var header := SectionHeader(Cut(g[j].0, limits.platform));
      text := text + header;
      text := AppendQueries(text, g[j].1, limits, word);
      SectionsTextStep(word, ss, j);
      AppendAssociates(before, header, QueriesText(word, ss[j].queries));
    }
    assert ss[..|g|] == ss;
  }

  lemma SectionsTextStep(word: string, ss: seq<Section>, j: nat)
    requires j < |ss|
    ensures SectionsText(word, ss[..j + 1])
      == SectionsText(word, ss[..j]) + (SectionHeader(ss[j].platform) + QueriesText(word, ss[j].queries))
  {
    assert ss[..j + 1][..j] == ss[..j];
  }

  // ---------------------------------------------------------------------------
  // Prompts per platform
  // ---------------------------------------------------------------------------

  /** `len(platform_responses) // (len(platform_data) if platform_data else 1)` */
  function PerPlatformGuarded(total: nat, groups: nat): nat {
    total / (if groups > 0 then groups else 1)
  }

  /** `len(platform_responses) // len(platform_data) if platform_data else 0` */
  function PerPlatformOrZero(total: nat, groups: nat): nat {
    if groups > 0 then total / groups else 0
  }

  /**
   * Both forms of the per-platform count are 0 without responses and agree
   * on every input the builders can see.
   */
  lemma PerPlatformAgree(rs: seq<Exchange>)
    ensures var n := |Grouped(rs)|;
      && PerPlatformGuarded(|rs|, n) == PerPlatformOrZero(|rs|, n)
      && (rs == [] ==> PerPlatformGuarded(|rs|, n) == 0)
  {
    GroupedEmpty(rs);
  }
}
