/**
 * What an Analyze run promises, stated over the plan the branch logic makes (app.py:130-161):
 * which runs make no generation call, what a Marketing or Sales run leaves, how the SWOT run
 * fills the dict when names repeat, and which failures are reported.
 */
module Outcomes {
  import opened Wrappers
  import opened Prompts
  import opened OrderedDict
  import opened Analyze

  /** The dict keys of a run's requests, in order. */
  function KeysOf(rs: seq<Request>): (ks: seq<string>)
    ensures |ks| == |rs| && forall i :: 0 <= i < |rs| ==> ks[i] == rs[i].key
  {
    seq(|rs|, i requires 0 <= i < |rs| => rs[i].key)
  }

  /** Two subjects get the same SWOT entry exactly when their names are equal. */
  lemma SwotKeyInjective(a: string, b: string)
    ensures SwotKey(a) == SwotKey(b) <==> a == b
  {
    if SwotKey(a) == SwotKey(b) {
      assert a == SwotKey(a)[18..];
    }
  }

  /** Request `i` is answered by call number `start + i`. */
  lemma {:induction false} AnswersAt(rs: seq<Request>, reply: (nat, string) -> Option<string>, start: nat)
    ensures forall i :: 0 <= i < |rs| ==>
      Answers(rs, reply, start)[i] == (rs[i].key, reply(start + i, rs[i].prompt))
  {
    if rs != [] {
      var init := rs[..|rs| - 1];
      AnswersAt(init, reply, start);
      forall i | 0 <= i < |init| ensures init[i] == rs[i] { }
    }
  }

  lemma KeysOfAnswers(rs: seq<Request>, reply: (nat, string) -> Option<string>, start: nat)
    ensures Keys(Answers(rs, reply, start)) == KeysOf(rs)
  {
    AnswersAt(rs, reply, start);
  }

  /**
   * A run makes no generation call exactly when the company name or URL is empty, or a Marketing or
   * Sales run does not have exactly one competitor; then no battlecard is produced, and only the
   * competitor-count case shows an error. Otherwise a SWOT run makes one call per subject and a
   * Marketing or Sales run makes one.
   */
  lemma CallCount(objective: Objective, primary: Subject, competitors: seq<Subject>,
                  reply: (nat, string) -> Option<string>, start: nat)
    ensures var plan := PlanFor(objective, primary, competitors);
      (SentPrompts(plan) == [] <==>
         primary.name == "" || primary.url == "" || (objective != SWOT && |competitors| != 1))
      && (SentPrompts(plan) == [] ==> Cards(plan, reply, start) == [])
      && (plan == Skipped <==> primary.name == "" || primary.url == "")
      && (plan == Skipped ==> Alerts(plan, reply, start) == [])
      && (plan.Rejected? ==> Alerts(plan, reply, start) == [CountError(CountMessage(objective))])
      && (plan.Issue? && objective == SWOT ==> |SentPrompts(plan)| == |competitors| + 1)
      && (plan.Issue? && objective != SWOT ==> |SentPrompts(plan)| == 1)
  {
  }

  /**
   * A Marketing or Sales run with its one competitor sends that objective's prompt once and leaves
   * a single battlecard, keyed by both names, holding the answer; an error is shown exactly when the
   * call failed, and the card then holds nothing.
   */
  lemma PairOutcome(objective: Objective, primary: Subject, rival: Subject,
                    reply: (nat, string) -> Option<string>, start: nat)
    requires objective != SWOT && primary.name != "" && primary.url != ""
    ensures var plan := PlanFor(objective, primary, [rival]);
      var key := if objective == Marketing then MarketingKey(primary.name, rival.name)
                 else SalesKey(primary.name, rival.name);
      var prompt := if objective == Marketing then MarketingPrompt(primary.name, primary.url, rival.name, rival.url)
                    else SalesPrompt(primary.name, primary.url, rival.name, rival.url);
      SentPrompts(plan) == [prompt]
      && Keys(Cards(plan, reply, start)) == [key]
      && Get(Cards(plan, reply, start), key) == Some(reply(start, prompt))
      && (Alerts(plan, reply, start) == [] <==> reply(start, prompt).Some?)
      && (reply(start, prompt).None? ==> Alerts(plan, reply, start) == [GenerationError(prompt)])
  {
    SingleRequestOutcome(PairRequest(objective, primary, rival), reply, start);
  }

  /** A SWOT run asks for the company's analysis first, then each competitor's in entry order. */
  lemma SwotPromptsSent(primary: Subject, competitors: seq<Subject>)
    requires primary.name != "" && primary.url != ""
    ensures var ps := SentPrompts(PlanFor(SWOT, primary, competitors));
      |ps| == |competitors| + 1
      && ps[0] == SwotPrompt(primary.name)
      && forall i :: 1 <= i < |ps| ==> ps[i] == SwotPrompt(competitors[i - 1].name)
  {
  }

  /**
   * After a SWOT run each name's entry holds the answer to the last request for that name: the
   * company's analysis is overwritten by a competitor with the same name, and an earlier
   * competitor's by a later one.
   */
  lemma SwotLastWriteWins(primary: Subject, competitors: seq<Subject>,
                          reply: (nat, string) -> Option<string>, start: nat, i: nat)
    requires primary.name != "" && primary.url != ""
    requires i <= |competitors|
    requires forall j :: i < j <= |competitors| ==> Names(primary, competitors)[j] != Names(primary, competitors)[i]
    ensures var name := Names(primary, competitors)[i];
      Get(Cards(PlanFor(SWOT, primary, competitors), reply, start), SwotKey(name)) ==
        Some(reply(start + i, SwotPrompt(name)))
  {
    var rs := SwotRequests(primary, competitors);
    var names := Names(primary, competitors);
    var answers := Answers(rs, reply, start);
    AnswersAt(rs, reply, start);
    assert rs[i] == SwotRequest(names[i]);
    forall j | i < j < |answers| ensures answers[j].0 != answers[i].0 {
      assert rs[j] == SwotRequest(names[j]);
      SwotKeyInjective(names[j], names[i]);
    }
    LastAt(answers, i);
    PutAllGet(answers, SwotKey(names[i]));
  }

  /** The SWOT keys of a run repeat exactly when two subjects share a name. */
  lemma SwotKeysDistinct(primary: Subject, competitors: seq<Subject>)
    ensures Distinct(KeysOf(SwotRequests(primary, competitors))) <==> Distinct(Names(primary, competitors))
  {
    var rs := SwotRequests(primary, competitors);
    var names := Names(primary, competitors);
    var ks := KeysOf(rs);
    forall i, j | 0 <= i < j < |ks| ensures ks[i] == ks[j] <==> names[i] == names[j] {
      assert rs[i] == SwotRequest(names[i]) && rs[j] == SwotRequest(names[j]);
      SwotKeyInjective(names[i], names[j]);
    }
  }

  /**
   * The SWOT dict holds one entry per distinct name, in the order the names first appear; it has
   * one entry per subject exactly when no two subjects share a name.
   */
  lemma SwotEntries(primary: Subject, competitors: seq<Subject>,
                    reply: (nat, string) -> Option<string>, start: nat)
    requires primary.name != "" && primary.url != ""
    ensures var cards := Cards(PlanFor(SWOT, primary, competitors), reply, start);
      Keys(cards) == Dedup(KeysOf(SwotRequests(primary, competitors)))
      && (|cards| == |competitors| + 1 <==> Distinct(Names(primary, competitors)))
  {
    var rs := SwotRequests(primary, competitors);
    KeysOfAnswers(rs, reply, start);
    PutAllKeys(Answers(rs, reply, start));
    DedupFacts(KeysOf(rs));
    SwotKeysDistinct(primary, competitors);
  }

  /** A run whose keys are distinct leaves its answers in the dict as they are, in request order. */
  lemma DistinctKeysCards(rs: seq<Request>, reply: (nat, string) -> Option<string>, start: nat)
    requires Distinct(KeysOf(rs))
    ensures Cards(Issue(rs), reply, start) == Answers(rs, reply, start)
  {
    KeysOfAnswers(rs, reply, start);
    PutAllDistinct(Answers(rs, reply, start));
  }

  /**
   * With distinct names the SWOT dict is exactly the requests' answers in subject order, the
   * company first.
   */
  lemma SwotDistinctNames(primary: Subject, competitors: seq<Subject>,
                          reply: (nat, string) -> Option<string>, start: nat)
    requires primary.name != "" && primary.url != ""
    requires Distinct(Names(primary, competitors))
    ensures var cards := Cards(PlanFor(SWOT, primary, competitors), reply, start);
      |cards| == |competitors| + 1
      && forall i :: 0 <= i < |cards| ==>
           cards[i] == (SwotKey(Names(primary, competitors)[i]), reply(start + i, SwotPrompt(Names(primary, competitors)[i])))
  {
    var rs := SwotRequests(primary, competitors);
    var names := Names(primary, competitors);
    SwotKeysDistinct(primary, competitors);
    DistinctKeysCards(rs, reply, start);
    AnswersAt(rs, reply, start);
    forall i | 0 <= i < |rs| ensures rs[i] == SwotRequest(names[i]) { }
  }

  /** Request `i` of a run was made and its call failed. */
  predicate Failed(rs: seq<Request>, reply: (nat, string) -> Option<string>, start: nat, i: int)
  {
    0 <= i < |rs| && reply(start + i, rs[i].prompt).None?
  }

  /**
   * Every failed call is reported with its prompt, and nothing else is: a failure does not stop the
   * run, and the requests after it are still made.
   */
  lemma {:induction false} FailuresReported(rs: seq<Request>, reply: (nat, string) -> Option<string>, start: nat)
    ensures forall a :: a in Failures(rs, reply, start) <==>
      exists i :: Failed(rs, reply, start, i) && a == GenerationError(rs[i].prompt)
  {
    if rs != [] {
      var init, n := rs[..|rs| - 1], |rs| - 1;
      var last := FailureOf(rs[n], reply(start + n, rs[n].prompt));
      FailuresReported(init, reply, start);
      assert Failures(rs, reply, start) == Failures(init, reply, start) + last;
      forall a ensures a in Failures(rs, reply, start) <==>
        exists i :: Failed(rs, reply, start, i) && a == GenerationError(rs[i].prompt)
      {
        if a in Failures(init, reply, start) {
          var i :| Failed(init, reply, start, i) && a == GenerationError(init[i].prompt);
          assert init[i] == rs[i] && Failed(rs, reply, start, i);
        } else if a in last {
          assert Failed(rs, reply, start, n);
        } else if exists i :: Failed(rs, reply, start, i) && a == GenerationError(rs[i].prompt) {
          var i :| Failed(rs, reply, start, i) && a == GenerationError(rs[i].prompt);
          if i < n {
            assert init[i] == rs[i] && Failed(init, reply, start, i);
          }
        }
      }
    }
  }

  /** No error is shown exactly when every call of the run succeeded. */
  lemma NoFailures(rs: seq<Request>, reply: (nat, string) -> Option<string>, start: nat)
    ensures Failures(rs, reply, start) == [] <==> forall i :: 0 <= i < |rs| ==> !Failed(rs, reply, start, i)
  {
    FailuresReported(rs, reply, start);
    if Failures(rs, reply, start) != [] {
      assert Failures(rs, reply, start)[0] in Failures(rs, reply, start);
    }
    forall i | Failed(rs, reply, start, i) ensures GenerationError(rs[i].prompt) in Failures(rs, reply, start) { }
  }

  /** A run's dict never holds a key twice, whatever its requests were. */
  lemma CardsDistinct(plan: Plan, reply: (nat, string) -> Option<string>, start: nat)
    ensures Distinct(Keys(Cards(plan, reply, start)))
  {
    if plan.Issue? {
      var answers := Answers(plan.requests, reply, start);
      PutAllKeys(answers);
      DedupFacts(Keys(answers));
    }
  }
}
