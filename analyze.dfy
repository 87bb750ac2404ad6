/**
 * The Analyze button (app.py:119-161): the URL list handed to the page fetcher, the check on the
 * company name and URL, the competitor-count rule of each objective, and the `battlecards` dict
 * built from the generated texts, one generation request per battlecard.
 */
module Analyze {
  import opened Wrappers
  import opened Prompts
  import opened OrderedDict
  import opened Generation

  datatype Objective = SWOT | Marketing | Sales

  /** A company as the form gives it: a name and a URL. */
  datatype Subject = Subject(name: string, url: string)

  /** One generation the run makes: the dict key its text is stored under, and the prompt sent. */
  datatype Request = Request(key: string, prompt: string)

  /**
   * What the branch logic decides before generating anything: nothing at all (company name or URL
   * empty), a competitor-count error, or the requests to make, in order.
   */
  datatype Plan = Skipped | Rejected(message: string) | Issue(requests: seq<Request>)

  /** A message shown with `st.error`. */
  datatype Alert = CountError(message: string) | GenerationError(prompt: string)

  const MarketingCountMessage := "For Marketing Battlecard, please provide one competitor."
  const SalesCountMessage := "For Sales Battlecard, please provide one competitor."

  function SwotKey(name: string): string
  {
    "SWOT Analysis for " + name
  }

  function MarketingKey(name1: string, name2: string): string
  {
    "Marketing Battlecard for " + name1 + " vs " + name2
  }

  function SalesKey(name1: string, name2: string): string
  {
    "Sales Battlecard for " + name1 + " vs " + name2
  }

  /** The URLs handed to the fetcher: the company's first, then each competitor's in entry order. */
  function Urls(primary: Subject, competitors: seq<Subject>): (urls: seq<string>)
    ensures |urls| == |competitors| + 1
    ensures urls[0] == primary.url
    ensures forall i :: 1 <= i < |urls| ==> urls[i] == competitors[i - 1].url
  {
    [primary.url] + seq(|competitors|, i requires 0 <= i < |competitors| => competitors[i].url)
  }

  /** The company's name followed by each competitor's. */
  function Names(primary: Subject, competitors: seq<Subject>): (names: seq<string>)
    ensures |names| == |competitors| + 1
    ensures names[0] == primary.name
    ensures forall i :: 1 <= i < |names| ==> names[i] == competitors[i - 1].name
  {
    [primary.name] + seq(|competitors|, i requires 0 <= i < |competitors| => competitors[i].name)
  }

  function SwotRequest(name: string): Request
  {
    Request(SwotKey(name), SwotPrompt(name))
  }

  /** One SWOT request per subject: the company's first, then each competitor's in entry order. */
  function SwotRequests(primary: Subject, competitors: seq<Subject>): (rs: seq<Request>)
    ensures |rs| == |competitors| + 1
    ensures rs[0] == SwotRequest(primary.name)
    ensures forall i :: 1 <= i < |rs| ==> rs[i] == SwotRequest(competitors[i - 1].name)
  {
    var names := Names(primary, competitors);
    seq(|names|, i requires 0 <= i < |names| => SwotRequest(names[i]))
  }

  /** The one request of a Marketing or Sales run, against its single competitor. */
  function PairRequest(objective: Objective, primary: Subject, rival: Subject): Request
  {
    if objective == Marketing then
      Request(MarketingKey(primary.name, rival.name), MarketingPrompt(primary.name, primary.url, rival.name, rival.url))
    else
      Request(SalesKey(primary.name, rival.name), SalesPrompt(primary.name, primary.url, rival.name, rival.url))
  }

  function CountMessage(objective: Objective): string
  {
    if objective == Marketing then MarketingCountMessage else SalesCountMessage
  }

  /** The branch on the company fields and the objective (app.py:132-161). */
  function PlanFor(objective: Objective, primary: Subject, competitors: seq<Subject>): Plan
  {
    if primary.name == "" || primary.url == "" then Skipped
    else if objective == SWOT then Issue(SwotRequests(primary, competitors))
    else if |competitors| == 1 then Issue([PairRequest(objective, primary, competitors[0])])
    else Rejected(CountMessage(objective))
  }

  function PromptsOf(rs: seq<Request>): (ps: seq<string>)
    ensures |ps| == |rs|
  {
    seq(|rs|, i requires 0 <= i < |rs| => rs[i].prompt)
  }

  /** The prompts a plan sends, in order. */
  function SentPrompts(plan: Plan): seq<string>
  {
    if plan.Issue? then PromptsOf(plan.requests) else []
  }

  /** The requests paired with the service's answers, request `i` being call number `start + i`. */
  function Answers(rs: seq<Request>, reply: (nat, string) -> Option<string>, start: nat): (answers: seq<(string, Option<string>)>)
    ensures |answers| == |rs|
  {
    if rs == [] then []
    else
      var last := rs[|rs| - 1];
      Answers(rs[..|rs| - 1], reply, start) + [(last.key, reply(start + |rs| - 1, last.prompt))]
  }

  /** The `battlecards` dict a plan leaves: each answer assigned under its key, in order. */
  function Cards(plan: Plan, reply: (nat, string) -> Option<string>, start: nat): seq<(string, Option<string>)>
  {
    if plan.Issue? then PutAll([], Answers(plan.requests, reply, start)) else []
  }

  /** The error get_gemini_response shows when the call for `r` fails (app.py:28-30). */
  function FailureOf(r: Request, answer: Option<string>): seq<Alert>
  {
    if answer.None? then [GenerationError(r.prompt)] else []
  }

  /** The errors get_gemini_response shows for the requests whose call failed, in order. */
  function Failures(rs: seq<Request>, reply: (nat, string) -> Option<string>, start: nat): seq<Alert>
  {
    if rs == [] then []
    else
      var last := rs[|rs| - 1];
      Failures(rs[..|rs| - 1], reply, start) + FailureOf(last, reply(start + |rs| - 1, last.prompt))
  }

  /** The errors a run shows. */
  function Alerts(plan: Plan, reply: (nat, string) -> Option<string>, start: nat): seq<Alert>
  {
    match plan
    case Skipped => []
    case Rejected(message) => [CountError(message)]
    case Issue(rs) => Failures(rs, reply, start)
  }

  lemma PutAllSnoc<V>(d: seq<(string, V)>, ps: seq<(string, V)>, p: (string, V))
    ensures PutAll(d, ps + [p]) == Put(PutAll(d, ps), p.0, p.1)
  {
    assert (ps + [p])[..|ps|] == ps;
  }

  lemma PromptsStep(rs: seq<Request>, n: nat)
    requires n < |rs|
    ensures PromptsOf(rs[..n + 1]) == PromptsOf(rs[..n]) + [rs[n].prompt]
  {
  }

  /** Answering one more request is one more assignment to the dict. */
  lemma CardsStep(rs: seq<Request>, reply: (nat, string) -> Option<string>, start: nat, n: nat)
    requires n < |rs|
    ensures PutAll([], Answers(rs[..n + 1], reply, start)) ==
      Put(PutAll([], Answers(rs[..n], reply, start)), rs[n].key, reply(start + n, rs[n].prompt))
  {
    var before := Answers(rs[..n], reply, start);
    var p := (rs[n].key, reply(start + n, rs[n].prompt));
    assert rs[..n + 1][..n] == rs[..n];
    assert Answers(rs[..n + 1], reply, start) == before + [p];
    PutAllSnoc([], before, p);
  }

  lemma FailuresStep(rs: seq<Request>, reply: (nat, string) -> Option<string>, start: nat, n: nat)
    requires n < |rs|
    ensures Failures(rs[..n + 1], reply, start) ==
      Failures(rs[..n], reply, start) + FailureOf(rs[n], reply(start + n, rs[n].prompt))
  {
    assert rs[..n + 1][..n] == rs[..n];
  }

  /**
   * One SWOT generation (app.py:135-136, 140-141): request `n` of the run goes out, its answer is
   * assigned under its key, and a failure is reported.
   */
  method SwotTurn(ghost rs: seq<Request>, n: nat, name: string, start: nat, service: Service,
                  battlecards: Dict<Option<string>>, alerts: seq<Alert>)
    returns (alerts': seq<Alert>)
    requires n < |rs| && rs[n] == SwotRequest(name)
    requires |service.sent| == start + n
    requires battlecards.items == PutAll([], Answers(rs[..n], service.reply, start))
    requires alerts == Failures(rs[..n], service.reply, start)
    modifies service, battlecards
    ensures service.sent == old(service.sent) + [rs[n].prompt]
    ensures battlecards.items == PutAll([], Answers(rs[..n + 1], service.reply, start))
    ensures alerts' == Failures(rs[..n + 1], service.reply, start)
  {
    var swot := service.GenerateSwot(name);
    battlecards.Set(SwotKey(name), swot);
    alerts' := alerts + FailureOf(SwotRequest(name), swot);
    CardsStep(rs, service.reply, start, n);
    FailuresStep(rs, service.reply, start, n);
  }

  /** The loop over the competitors (app.py:139-141): request `i + 1` of the run is competitor `i`'s. */
  method SwotCompetitors(ghost rs: seq<Request>, competitors: seq<Subject>, start: nat, ghost log: seq<string>,
                         service: Service, battlecards: Dict<Option<string>>, alerts: seq<Alert>)
    returns (alerts': seq<Alert>)
    requires |rs| == |competitors| + 1
    requires forall i :: 1 <= i < |rs| ==> rs[i] == SwotRequest(competitors[i - 1].name)
    requires |log| == start && service.sent == log + PromptsOf(rs[..1])
    requires battlecards.items == PutAll([], Answers(rs[..1], service.reply, start))
    requires alerts == Failures(rs[..1], service.reply, start)
    modifies service, battlecards
    ensures service.sent == log + PromptsOf(rs)
    ensures battlecards.items == PutAll([], Answers(rs, service.reply, start))
    ensures alerts' == Failures(rs, service.reply, start)
  {
    alerts' := alerts;
    var i := 0;
    while i < |competitors|
      invariant 0 <= i <= |competitors|
      invariant service.sent == log + PromptsOf(rs[..i + 1])
      invariant battlecards.items == PutAll([], Answers(rs[..i + 1], service.reply, start))
      invariant alerts' == Failures(rs[..i + 1], service.reply, start)
    {
      alerts' := SwotTurn(rs, i + 1, competitors[i].name, start, service, battlecards, alerts');
      PromptsStep(rs, i + 1);
      i := i + 1;
    }
    assert rs[..i + 1] == rs;
  }

  /** The SWOT branch (app.py:133-141): the company first, then every competitor in entry order. */
  method AnalyzeSwot(primary: Subject, competitors: seq<Subject>, service: Service, battlecards: Dict<Option<string>>)
    returns (alerts: seq<Alert>)
    requires battlecards.items == []
    modifies service, battlecards
    ensures service.sent == old(service.sent) + PromptsOf(SwotRequests(primary, competitors))
    ensures battlecards.items == PutAll([], Answers(SwotRequests(primary, competitors), service.reply, |old(service.sent)|))
    ensures alerts == Failures(SwotRequests(primary, competitors), service.reply, |old(service.sent)|)
  {
    var start := |service.sent|;
    ghost var log := service.sent;
    ghost var rs := SwotRequests(primary, competitors);
    alerts := SwotTurn(rs, 0, primary.name, start, service, battlecards, []);
    PromptsStep(rs, 0);
    if |competitors| > 0 {
      alerts := SwotCompetitors(rs, competitors, start, log, service, battlecards, alerts);
    } else {
      assert rs[..1] == rs;
    }
  }

  /** The Marketing and Sales branches with their one competitor (app.py:144-149, 154-159). */
  method AnalyzePair(objective: Objective, primary: Subject, rival: Subject, service: Service, battlecards: Dict<Option<string>>)
    returns (alerts: seq<Alert>)
    requires objective != SWOT && battlecards.items == []
    modifies service, battlecards
    ensures var r := PairRequest(objective, primary, rival);
      service.sent == old(service.sent) + [r.prompt]
      && battlecards.items == [(r.key, service.reply(|old(service.sent)|, r.prompt))]
      && alerts == FailureOf(r, service.reply(|old(service.sent)|, r.prompt))
  {
    var battlecardData;
    if objective == Marketing {
      battlecardData := service.GenerateMarketing(primary.name, primary.url, rival.name, rival.url);
      battlecards.Set(MarketingKey(primary.name, rival.name), battlecardData);
    } else {
      battlecardData := service.GenerateSales(primary.name, primary.url, rival.name, rival.url);
      battlecards.Set(SalesKey(primary.name, rival.name), battlecardData);
    }
    alerts := FailureOf(PairRequest(objective, primary, rival), battlecardData);
  }

  /** A run with one request makes one call, and leaves one card holding that call's answer. */
  lemma SingleRequestOutcome(r: Request, reply: (nat, string) -> Option<string>, start: nat)
    ensures SentPrompts(Issue([r])) == [r.prompt]
    ensures Cards(Issue([r]), reply, start) == [(r.key, reply(start, r.prompt))]
    ensures Alerts(Issue([r]), reply, start) == FailureOf(r, reply(start, r.prompt))
  {
    var p := (r.key, reply(start, r.prompt));
    assert [r][..0] == [];
    assert Answers([r], reply, start) == [] + [p];
    PutAllSnoc([], [], p);
    assert Failures([r], reply, start) == Failures([], reply, start) + FailureOf(r, reply(start, r.prompt));
  }

  /**
   * The Analyze button. The fetcher is not part of the model: the URL list it would be given is
   * returned.
   */
  method Analyze(objective: Objective, primary: Subject, competitors: seq<Subject>, service: Service)
    returns (urls: seq<string>, battlecards: Dict<Option<string>>, alerts: seq<Alert>)
    modifies service
    ensures urls == Urls(primary, competitors)
    ensures fresh(battlecards)
    ensures service.sent == old(service.sent) + SentPrompts(PlanFor(objective, primary, competitors))
    ensures battlecards.items == Cards(PlanFor(objective, primary, competitors), service.reply, |old(service.sent)|)
    ensures alerts == Alerts(PlanFor(objective, primary, competitors), service.reply, |old(service.sent)|)
  {
    urls := [primary.url] + seq(|competitors|, i requires 0 <= i < |competitors| => competitors[i].url);
    battlecards := new Dict();
    alerts := [];
    if primary.name != "" && primary.url != "" {
      if objective == SWOT {
        alerts := AnalyzeSwot(primary, competitors, service, battlecards);
      } else if |competitors| == 1 {
        SingleRequestOutcome(PairRequest(objective, primary, competitors[0]), service.reply, |service.sent|);
        alerts := AnalyzePair(objective, primary, competitors[0], service, battlecards);
      } else {
        alerts := [CountError(CountMessage(objective))];
      }
    }
  }
}
