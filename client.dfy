/** The vision-judge client (angeleyes/llm/client.py). The HTTP exchange, the
    JSON shape and the base64 image encoding are not modelled: each call is
    handed the outcome of that exchange, either the model's free-text reply or
    the text of the exception that interrupted it. What is modelled is how the
    reply is read: a keyword classifier over the lower-cased reply, fixed
    confidences, and fail-open defaults on every error. */
module LlmClient {
  import opened Wrappers
  import opened Text
  import opened Models

  /** The outcome of one chat-completions exchange. */
  datatype JudgeReply = Replied(content: string) | Failed(error: string)

  /** The outcome of the `GET /models` probe. */
  datatype ProbeOutcome = Responded(statusCode: int) | ProbeRaised(error: string)

  datatype LMStudioConfig = LMStudioConfig(baseUrl: string, model: string, timeout: real)

  const DefaultConfig := LMStudioConfig("http://localhost:1234/v1", "local-model", 30.0)

  /** Longest reason kept from a focus reply. */
  const ReasonLimit := 200

  const FocusedConfidence: Confidence := 0.8
  const DistractedConfidence: Confidence := 0.7
  const PostureConfidence: Confidence := 0.75
  const FailOpenConfidence: Confidence := 0.5

  /** The posture keywords and the issue tag each one raises, in the order the
      tags are reported. */
  const IssueTable: seq<(string, string)> := [
    ("slouch", "Slouching detected"),
    ("neck", "Forward head position"),
    ("shoulder", "Uneven shoulders")
  ]

  /** The tags of the table rows whose keyword occurs in `lower`, in table order. */
  function TagsFor(table: seq<(string, string)>, lower: string): (tags: seq<string>)
    ensures |tags| <= |table|
  {
    if table == [] then []
    else (if Contains(lower, table[0].0) then [table[0].1] else []) + TagsFor(table[1..], lower)
  }

  /** The issue tags a reply raises. */
  function PostureIssues(content: string): (issues: seq<string>)
    ensures |issues| <= 3
  {
    TagsFor(IssueTable, Lower(content))
  }

  /** The focus verdict of a reply. Because "unfocused" contains "focused",
      a reply that says the user is unfocused still reads as focused. */
  function FocusVerdict(content: string): (focused: bool)
    ensures focused <==> Occurs("true", Lower(content)) || Occurs("focused", Lower(content))
  {
    Contains(Lower(content), "true") || Contains(Lower(content), "focused")
  }

  /** The posture verdict of a reply. Because "incorrect" contains "correct",
      a reply that calls the posture incorrect still reads as correct. */
  function PostureVerdict(content: string): (correct: bool)
    ensures correct <==> Occurs("correct", Lower(content)) || Occurs("good", Lower(content))
  {
    Contains(Lower(content), "correct") || Contains(Lower(content), "good")
  }

  /** The reason reported for a reply: its first 200 characters. */
  function Reason(content: string): (reason: string)
    ensures |reason| == if |content| < ReasonLimit then |content| else ReasonLimit
    ensures reason <= content
  {
    if |content| <= ReasonLimit then content else content[..ReasonLimit]
  }

  const FocusErrorPrefix := "Error checking focus: "
  const PostureErrorPrefix := "Error checking posture: "

  /** The focus response for the outcome of an exchange. A reply is classified
      by keyword, with confidence 0.8 when focused and 0.7 otherwise; a failure
      yields the fail-open response: focused, confidence 0.5, and the error
      text as reason. */
  function FocusAnswer(reply: JudgeReply): (r: FocusCheckResponse)
    ensures reply.Replied? ==>
      && (r.isFocused <==> Occurs("true", Lower(reply.content)) || Occurs("focused", Lower(reply.content)))
      && r.confidence == (if r.isFocused then 0.8 else 0.7)
      && r.reason <= reply.content
      && |r.reason| == (if |reply.content| < 200 then |reply.content| else 200)
    ensures reply.Failed? ==>
      r.isFocused && r.confidence == 0.5 && r.reason == "Error checking focus: " + reply.error
  {
    match reply
    case Replied(content) =>
      var isFocused := FocusVerdict(content);
      FocusCheckResponse(isFocused, if isFocused then FocusedConfidence else DistractedConfidence, Reason(content))
    case Failed(error) =>
      FocusCheckResponse(true, FailOpenConfidence, FocusErrorPrefix + error)
  }

  /** The posture response for the outcome of an exchange. A reply is
      classified by keyword, with the fixed confidence 0.75 and the issue tags
      it raises; a failure yields the fail-open response: correct, confidence
      0.5, and the error text as the only issue. */
  function PostureAnswer(reply: JudgeReply): (r: PostureCheckResponse)
    ensures reply.Replied? ==>
      && (r.isCorrect <==> Occurs("correct", Lower(reply.content)) || Occurs("good", Lower(reply.content)))
      && r.confidence == 0.75
      && r.issues == PostureIssues(reply.content)
    ensures reply.Failed? ==>
      r.isCorrect && r.confidence == 0.5 && r.issues == ["Error checking posture: " + reply.error]
  {
    match reply
    case Replied(content) => PostureCheckResponse(PostureVerdict(content), PostureConfidence, PostureIssues(content))
    case Failed(error) => PostureCheckResponse(true, FailOpenConfidence, [PostureErrorPrefix + error])
  }

  /** The LMStudio client. Its configuration is fixed at construction; no
      call changes any state of the client. */
  class LMStudioClient {
    const config: LMStudioConfig

    /** `config or LMStudioConfig()`: the given configuration, or the defaults. */
    constructor (config: Option<LMStudioConfig>)
      ensures this.config == if config.Some? then config.value else DefaultConfig
    {
      this.config := if config.Some? then config.value else DefaultConfig;
    }

    /** The server is reachable exactly when the probe answered with status 200;
        a probe that raised counts as unreachable. */
    method VerifyConnection(probe: ProbeOutcome) returns (ok: bool)
      ensures ok <==> probe.Responded? && probe.statusCode == 200
    {
      match probe {
        case Responded(status) =>
          var httpOk := 200;
          ok := status == httpOk;
        case ProbeRaised(_) =>
          ok := false;
      }
    }

    /** `check_focus`: the exchange, then the reading of its reply; an error
        anywhere in the exchange is caught and answered fail-open. */
    method CheckFocus(request: FocusCheckRequest, reply: JudgeReply) returns (r: FocusCheckResponse)
      ensures r == FocusAnswer(reply)
    {
      match reply {
        case Replied(content) =>
          var isFocused := FocusVerdict(content);
          var confidence := if isFocused then FocusedConfidence else DistractedConfidence;
          r := FocusCheckResponse(isFocused, confidence, Reason(content));
        case Failed(error) =>
          r := FocusCheckResponse(true, FailOpenConfidence, FocusErrorPrefix + error);
      }
    }

    /** `_parse_posture_issues`: one conditional append per keyword. */
    method ParsePostureIssues(content: string) returns (issues: seq<string>)
      ensures issues == PostureIssues(content)
      ensures ("Slouching detected" in issues) <==> Occurs("slouch", Lower(content))
      ensures ("Forward head position" in issues) <==> Occurs("neck", Lower(content))
      ensures ("Uneven shoulders" in issues) <==> Occurs("shoulder", Lower(content))
      ensures |issues| <= 3
    {
      issues := [];
      var contentLower := Lower(content);
      if Contains(contentLower, "slouch") {
        issues := issues + ["Slouching detected"];
      }
      if Contains(contentLower, "neck") {
        issues := issues + ["Forward head position"];
      }
      if Contains(contentLower, "shoulder") {
        issues := issues + ["Uneven shoulders"];
      }
      PostureIssuesUnfold(content);
    }

    /** `check_posture`: the exchange, then the reading of its reply; an error
        anywhere in the exchange is caught and answered fail-open. */
    method CheckPosture(request: PostureCheckRequest, reply: JudgeReply) returns (r: PostureCheckResponse)
      ensures r == PostureAnswer(reply)
    {
      match reply {
        case Replied(content) =>
          var isCorrect := PostureVerdict(content);
          var issues := ParsePostureIssues(content);
          r := PostureCheckResponse(isCorrect, PostureConfidence, issues);
        case Failed(error) =>
          r := PostureCheckResponse(true, FailOpenConfidence, [PostureErrorPrefix + error]);
      }
    }
  }

  /** The issue list spelled out: one optional tag per keyword, in table order. */
  lemma PostureIssuesUnfold(content: string)
    ensures PostureIssues(content) ==
      (if Contains(Lower(content), "slouch") then ["Slouching detected"] else [])
      + (if Contains(Lower(content), "neck") then ["Forward head position"] else [])
      + (if Contains(Lower(content), "shoulder") then ["Uneven shoulders"] else [])
  {
    var lower := Lower(content);
    assert IssueTable[1..][1..][1..] == [];
    calc {
      PostureIssues(content);
      TagsFor(IssueTable, lower);
      (if Contains(lower, "slouch") then ["Slouching detected"] else []) + TagsFor(IssueTable[1..], lower);
      (if Contains(lower, "slouch") then ["Slouching detected"] else [])
        + (if Contains(lower, "neck") then ["Forward head position"] else [])
        + TagsFor(IssueTable[1..][1..], lower);
    }
  }

  /** A tag is reported exactly when its row's keyword occurs in the text. */
  lemma {:induction false} TagsForMembership(table: seq<(string, string)>, lower: string, k: nat)
    requires k < |table|
    requires forall i, j :: 0 <= i < j < |table| ==> table[i].1 != table[j].1
    ensures table[k].1 in TagsFor(table, lower) <==> Occurs(table[k].0, lower)
  {
    if k == 0 {
      TagsForOnlyTable(table[1..], lower);
    } else {
      TagsForMembership(table[1..], lower, k - 1);
    }
  }

  /** Every reported tag is the tag of some row of the table. */
  lemma {:induction false} TagsForOnlyTable(table: seq<(string, string)>, lower: string)
    ensures forall t :: t in TagsFor(table, lower) ==> exists i :: 0 <= i < |table| && table[i].1 == t
  {
    if table != [] {
      TagsForOnlyTable(table[1..], lower);
      var rest := TagsFor(table[1..], lower);
      assert TagsFor(table, lower) == (if Contains(lower, table[0].0) then [table[0].1] else []) + rest;
      forall t | t in TagsFor(table, lower)
        ensures exists i :: 0 <= i < |table| && table[i].1 == t
      {
        if t != table[0].1 {
          assert t in rest;
          var i :| 0 <= i < |table[1..]| && table[1..][i].1 == t;
          assert table[i + 1].1 == t;
        }
      }
    }
  }

  /** No element of `s` appears twice. */
  predicate Distinct(s: seq<string>)
  {
    forall i, j :: 0 <= i < j < |s| ==> s[i] != s[j]
  }

  /** When the table's tags are distinct, so are the reported tags. */
  lemma {:induction false} TagsForDistinct(table: seq<(string, string)>, lower: string)
    requires forall i, j :: 0 <= i < j < |table| ==> table[i].1 != table[j].1
    ensures Distinct(TagsFor(table, lower))
  {
    if table != [] {
      TagsForDistinct(table[1..], lower);
      TagsForOnlyTable(table[1..], lower);
      var rest := TagsFor(table[1..], lower);
      assert TagsFor(table, lower) == (if Contains(lower, table[0].0) then [table[0].1] else []) + rest;
      forall t | t in rest ensures t != table[0].1 {
        var i :| 0 <= i < |table[1..]| && table[1..][i].1 == t;
        assert table[i + 1].1 == t;
      }
      assert Distinct(rest);
      var tags := TagsFor(table, lower);
      if Contains(lower, table[0].0) {
        assert tags == [table[0].1] + rest;
        forall i, j | 0 <= i < j < |tags| ensures tags[i] != tags[j] {
          if i == 0 {
            assert tags[j] == rest[j - 1] && rest[j - 1] in rest;
          } else {
            assert tags[i] == rest[i - 1] && tags[j] == rest[j - 1];
          }
        }
      }
    }
  }

  /** The posture issues: at most three, no tag twice, and each tag present
      exactly when its keyword occurs in the lower-cased reply. */
  lemma PostureIssuesProperties(content: string)
    ensures var issues := PostureIssues(content);
      && |issues| <= 3
      && Distinct(issues)
      && ("Slouching detected" in issues <==> Occurs("slouch", Lower(content)))
      && ("Forward head position" in issues <==> Occurs("neck", Lower(content)))
      && ("Uneven shoulders" in issues <==> Occurs("shoulder", Lower(content)))
  {
    TagsForDistinct(IssueTable, Lower(content));
    TagsForMembership(IssueTable, Lower(content), 0);
    TagsForMembership(IssueTable, Lower(content), 1);
    TagsForMembership(IssueTable, Lower(content), 2);
  }

  /** The issue tags depend only on the lower-cased reply: two replies that
      differ only in letter case raise the same tags. */
  lemma IssuesIgnoreCase(a: string, b: string)
    requires Lower(a) == Lower(b)
    ensures PostureIssues(a) == PostureIssues(b)
  {
  }

  /** A reply saying "not focused" or "unfocused" is read as focused. */
  lemma NegatedFocusReadsAsFocused(pre: string, post: string)
    ensures FocusVerdict(pre + "not focused" + post)
    ensures FocusVerdict(pre + "unfocused" + post)
  {
    assert pre + "not focused" + post == (pre + "not ") + "focused" + post;
    LoweredKeyword(pre + "not ", "focused", post);
    assert pre + "unfocused" + post == (pre + "un") + "focused" + post;
    LoweredKeyword(pre + "un", "focused", post);
  }

  /** A reply calling the posture "incorrect" is read as correct posture. */
  lemma IncorrectReadsAsCorrect(pre: string, post: string)
    ensures PostureVerdict(pre + "incorrect" + post)
  {
    assert pre + "incorrect" + post == (pre + "in") + "correct" + post;
    LoweredKeyword(pre + "in", "correct", post);
  }

  /** Any reply that says "good" anywhere, say "not good", is read as correct
      posture. */
  lemma GoodReadsAsCorrect(pre: string, post: string)
    ensures PostureVerdict(pre + "good" + post)
  {
    LoweredKeyword(pre, "good", post);
  }

  /** A distracted reply without either focus keyword is read as not focused. */
  lemma DistractedReplyIsNotFocused()
    ensures !FocusVerdict("distracted, browsing social media")
  {
    var reply := "distracted, browsing social media";
    assert Lower(reply) == reply by {
      LowerOfLower(reply);
    }
    assert !Occurs("true", reply) by {
      AbsentCharRulesOut("true", reply, 2);
    }
    assert !Occurs("focused", reply) by {
      AbsentCharRulesOut("focused", reply, 0);
    }
  }

  /** A reply praising the posture without any issue keyword raises no issue. */
  lemma GoodPostureReplyHasNoIssues()
    ensures PostureIssues("posture looks good") == []
  {
    var reply := "posture looks good";
    assert Lower(reply) == reply by {
      LowerOfLower(reply);
    }
    assert !Occurs("slouch", reply) by {
      AbsentCharRulesOut("slouch", reply, 4);
    }
    assert !Occurs("neck", reply) by {
      AbsentCharRulesOut("neck", reply, 0);
    }
    assert !Occurs("shoulder", reply) by {
      AbsentCharRulesOut("shoulder", reply, 1);
    }
    PostureIssuesUnfold(reply);
  }

  /** A keyword cannot occur in a text that lacks one of its characters. */
  lemma AbsentCharRulesOut(sub: string, s: string, k: nat)
    requires k < |sub|
    requires sub[k] !in s
    ensures !Occurs(sub, s)
  {
  }
}
