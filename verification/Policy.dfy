/**
 The decision about a command: every segment is matched against a built-in table (any function here) and a list
 of prefix rules, and the strictest answer wins.
 */
module Policy {
  import opened Base
  import opened ShellSyntax
  import opened ShellTheorems
  import opened Shell

  datatype Decision = Allow | Prompt | Forbidden

  function Rank(d: Decision): nat { match d case Allow => 0 case Prompt => 1 case Forbidden => 2 }

  function Strictest(a: Decision, b: Decision): Decision { if Rank(b) > Rank(a) then b else a }

  datatype Rule = Rule(name: string, pattern: seq<string>, decision: Decision)

  /** The built-in table: a decision for some argument lists. */
  type Builtin = seq<string> -> Option<Decision>

  datatype Evaluation = Evaluation(decision: Decision, segments: seq<seq<string>>, matched: seq<string>)

  // ---- What the decision is ----

  predicate Matches(argv: seq<string>, r: Rule) { r.pattern <= argv }

  /** The decisions that apply to a segment. */
  function Votes(argv: seq<string>, rules: seq<Rule>): set<Decision> {
    set r | r in rules && Matches(argv, r) :: r.decision
  }

  function AllVotes(argv: seq<string>, builtin: Builtin, rules: seq<Rule>): set<Decision> {
    Votes(argv, rules) + if builtin(argv).Some? then {builtin(argv).value} else {}
  }

  /** The strictest of a set of decisions. */
  function Maximum(votes: set<Decision>): Decision {
    if Forbidden in votes then Forbidden else if Prompt in votes then Prompt else Allow
  }

  /** Asked for when nothing matches, else the strictest match. */
  function SegmentDecision(argv: seq<string>, builtin: Builtin, rules: seq<Rule>): Decision {
    if AllVotes(argv, builtin, rules) == {} then Prompt else Maximum(AllVotes(argv, builtin, rules))
  }

  function CommandVotes(segments: seq<seq<string>>, builtin: Builtin, rules: seq<Rule>): set<Decision> {
    set argv | argv in segments :: SegmentDecision(argv, builtin, rules)
  }

  function CommandDecision(segments: seq<seq<string>>, builtin: Builtin, rules: seq<Rule>): Decision {
    Maximum(CommandVotes(segments, builtin, rules))
  }

  /** The whole decision: what cannot be parsed is forbidden. */
  function Decide(command: string, builtin: Builtin, rules: seq<Rule>): Decision {
    match Parsed(command)
    case Err(_) => Forbidden
    case Ok(c) => CommandDecision(c.segments, builtin, rules)
  }

  lemma MaximumIsMaximum(votes: set<Decision>, d: Decision)
    ensures d in votes ==> Rank(d) <= Rank(Maximum(votes))
    ensures votes != {} ==> Maximum(votes) in votes
  {
    if votes != {} {
      var v :| v in votes;
      assert v == Allow || v == Prompt || v == Forbidden;
    }
  }

  lemma MaximumOfUnion(a: set<Decision>, b: set<Decision>)
    ensures Maximum(a + b) == Strictest(Maximum(a), Maximum(b))
  {
  }

  // ---- The fold ----

  function MatchedNames(argv: seq<string>, rules: seq<Rule>): seq<string> {
    if rules == [] then []
    else
      var n := |rules| - 1;
      MatchedNames(argv, rules[..n]) + if Matches(argv, rules[n]) then [rules[n].name] else []
  }

  function SegmentNames(argv: seq<string>, builtin: Builtin, rules: seq<Rule>): seq<string> {
    (if builtin(argv).Some? && argv != [] then ["builtin:" + argv[0]] else []) + MatchedNames(argv, rules)
  }

  function AllNames(segments: seq<seq<string>>, builtin: Builtin, rules: seq<Rule>): seq<string> {
    if segments == [] then []
    else
      var n := |segments| - 1;
      AllNames(segments[..n], builtin, rules) + SegmentNames(segments[n], builtin, rules)
  }

  method Prefix(argv: seq<string>, pattern: seq<string>) returns (r: bool)
    ensures r <==> pattern <= argv
  {
    if |argv| < |pattern| { return false; }
    for i := 0 to |pattern|
      invariant pattern[..i] == argv[..i]
    {
      if argv[i] != pattern[i] { return false; }
    }
    assert pattern[..|pattern|] == pattern;
    r := true;
  }

  lemma VotesAppend(argv: seq<string>, rules: seq<Rule>, r: Rule)
    ensures Votes(argv, rules + [r]) == Votes(argv, rules) + if Matches(argv, r) then {r.decision} else {}
  {
    forall d | d in Votes(argv, rules + [r]) ensures d in Votes(argv, rules) + if Matches(argv, r) then {r.decision} else {} {
      var q :| q in rules + [r] && Matches(argv, q) && q.decision == d;
      assert q in rules || q == r;
    }
    forall d | d in Votes(argv, rules) ensures d in Votes(argv, rules + [r]) {
      var q :| q in rules && Matches(argv, q) && q.decision == d;
      assert q in rules + [r];
    }
    if Matches(argv, r) { assert r in rules + [r]; }
  }

  lemma OneVoteMore(votes: set<Decision>, d: Decision)
    ensures Maximum(votes + {d}) == if votes == {} then d else Strictest(Maximum(votes), d)
  {
    MaximumIsMaximum(votes, d);
  }

  /** Taking the vote as it comes: the first one counts, a later one when it is stricter. */
  lemma Raised(votes: set<Decision>, d: Decision, vote: Decision)
    requires votes != {} ==> d == Maximum(votes)
    ensures votes + {vote} != {} && Maximum(votes + {vote}) == if votes == {} || Strictest(d, vote) != d then vote else d
  {
    OneVoteMore(votes, vote);
    assert vote in votes + {vote};
  }

  lemma NamesAppend(argv: seq<string>, rules: seq<Rule>, r: Rule)
    ensures MatchedNames(argv, rules + [r]) == if Matches(argv, r) then MatchedNames(argv, rules) + [r.name] else MatchedNames(argv, rules)
  {
    assert (rules + [r])[..|rules|] == rules;
  }

  lemma OneRuleMore(argv: seq<string>, rules: seq<Rule>, i: nat)
    requires i < |rules|
    ensures Votes(argv, rules[..i + 1]) ==
      if Matches(argv, rules[i]) then Votes(argv, rules[..i]) + {rules[i].decision} else Votes(argv, rules[..i])
    ensures MatchedNames(argv, rules[..i + 1]) ==
      if Matches(argv, rules[i]) then MatchedNames(argv, rules[..i]) + [rules[i].name] else MatchedNames(argv, rules[..i])
  {
    assert rules[..i + 1] == rules[..i] + [rules[i]];
    VotesAppend(argv, rules[..i], rules[i]);
    NamesAppend(argv, rules[..i], rules[i]);
  }

  lemma OneVoteMoreWith(argv: seq<string>, rules: seq<Rule>, i: nat, before: set<Decision>)
    requires i < |rules|
    ensures Votes(argv, rules[..i + 1]) + before ==
      if Matches(argv, rules[i]) then (Votes(argv, rules[..i]) + before) + {rules[i].decision} else Votes(argv, rules[..i]) + before
  {
    OneRuleMore(argv, rules, i);
  }

  lemma EveryRule(argv: seq<string>, rules: seq<Rule>)
    ensures Votes(argv, rules[..|rules|]) == Votes(argv, rules) && MatchedNames(argv, rules[..|rules|]) == MatchedNames(argv, rules)
  {
    assert rules[..|rules|] == rules;
  }

  /** One segment against the table and every rule. */
  method EvaluateSegment(argv: seq<string>, builtin: Builtin, rules: seq<Rule>) returns (d: Decision, names: seq<string>)
    requires argv != []
    ensures d == SegmentDecision(argv, builtin, rules)
    ensures names == SegmentNames(argv, builtin, rules)
  {
    var table := builtin(argv);
    var matched := table.Some?;
    d := if matched then table.value else Allow;
    names := if matched then ["builtin:" + argv[0]] else [];
    ghost var before, start := if matched then {table.value} else {}, names;
    ghost var votes, found := before, [];
    for i := 0 to |rules|
      invariant votes == Votes(argv, rules[..i]) + before && found == MatchedNames(argv, rules[..i])
      invariant names == start + found
      invariant matched <==> votes != {}
      invariant matched ==> d == Maximum(votes)
    {
      OneRuleMore(argv, rules, i);
      OneVoteMoreWith(argv, rules, i, before);
      var fits := Prefix(argv, rules[i].pattern);
      if fits {
        Raised(votes, d, rules[i].decision);
        votes, found := votes + {rules[i].decision}, found + [rules[i].name];
        if !matched || Strictest(d, rules[i].decision) != d { d := rules[i].decision; }
        matched := true;
        names := names + [rules[i].name];
      }
    }
    EveryRule(argv, rules);
    if !matched { d := Prompt; }
  }

  lemma CommandVotesAppend(segments: seq<seq<string>>, argv: seq<string>, builtin: Builtin, rules: seq<Rule>)
    ensures CommandVotes(segments + [argv], builtin, rules)
         == CommandVotes(segments, builtin, rules) + {SegmentDecision(argv, builtin, rules)}
  {
    forall d | d in CommandVotes(segments, builtin, rules) ensures d in CommandVotes(segments + [argv], builtin, rules) {
      var a :| a in segments && SegmentDecision(a, builtin, rules) == d;
      assert a in segments + [argv];
    }
    assert argv in segments + [argv];
  }

  /** Every segment is looked at before anything is decided. */
  method Evaluate(command: string, builtin: Builtin, defaults: seq<Rule>, extra: seq<Rule>) returns (e: Evaluation)
    ensures e.decision == Decide(command, builtin, defaults + extra)
    ensures match Parsed(command)
            case Err(_) => e.segments == [] && e.matched == []
            case Ok(c) => e.segments == c.segments && e.matched == AllNames(c.segments, builtin, defaults + extra)
  {
    var parsed := Parse(command);
    if parsed.Err? { return Evaluation(Forbidden, [], []); }
    var segments, rules := parsed.value.segments, defaults + extra;
    var decision, names := Allow, [];
    for i := 0 to |segments|
      invariant decision == CommandDecision(segments[..i], builtin, rules)
      invariant names == AllNames(segments[..i], builtin, rules)
    {
      assert GoodSegment(segments[i]);
      assert segments[..i + 1] == segments[..i] + [segments[i]];
      OneSegmentMore(segments[..i], segments[i], builtin, rules);
      var d, matched := EvaluateSegment(segments[i], builtin, rules);
      decision := Strictest(decision, d);
      names := names + matched;
    }
    assert segments[..|segments|] == segments;
    e := Evaluation(decision, segments, names);
  }

  lemma OneSegmentMore(segments: seq<seq<string>>, argv: seq<string>, builtin: Builtin, rules: seq<Rule>)
    ensures CommandDecision(segments + [argv], builtin, rules)
         == Strictest(CommandDecision(segments, builtin, rules), SegmentDecision(argv, builtin, rules))
    ensures AllNames(segments + [argv], builtin, rules) == AllNames(segments, builtin, rules) + SegmentNames(argv, builtin, rules)
  {
    CommandVotesAppend(segments, argv, builtin, rules);
    MaximumOfUnion(CommandVotes(segments, builtin, rules), {SegmentDecision(argv, builtin, rules)});
    assert (segments + [argv])[..|segments|] == segments;
  }

  // ---- What follows ----

  /** The same rules in any order, any number of times, decide the same. */
  lemma RuleOrderIsIrrelevant(command: string, builtin: Builtin, rules: seq<Rule>, rules': seq<Rule>)
    requires forall r :: r in rules <==> r in rules'
    ensures Decide(command, builtin, rules) == Decide(command, builtin, rules')
  {
    forall argv ensures SegmentDecision(argv, builtin, rules) == SegmentDecision(argv, builtin, rules') {
      assert Votes(argv, rules) == Votes(argv, rules');
    }
    if Parsed(command).Ok? {
      var segments := Parsed(command).value.segments;
      assert CommandVotes(segments, builtin, rules) == CommandVotes(segments, builtin, rules');
    }
  }

  lemma VotesOfBoth(argv: seq<string>, rules: seq<Rule>, extra: seq<Rule>)
    ensures Votes(argv, rules + extra) == Votes(argv, rules) + Votes(argv, extra)
  {
    forall d | d in Votes(argv, rules) + Votes(argv, extra) ensures d in Votes(argv, rules + extra) {
      var q :| (q in rules || q in extra) && Matches(argv, q) && q.decision == d;
      assert q in rules + extra;
    }
    forall d | d in Votes(argv, rules + extra) ensures d in Votes(argv, rules) + Votes(argv, extra) {
      var q :| q in rules + extra && Matches(argv, q) && q.decision == d;
      assert q in rules || q in extra;
    }
  }

  /**
   Extra rules can lower one thing only: a segment that nothing matched, which they decide alone. What a match
   has put at some level stays there or rises.
   */
  lemma ExtraRules(argv: seq<string>, builtin: Builtin, rules: seq<Rule>, extra: seq<Rule>)
    ensures
      var before := SegmentDecision(argv, builtin, rules);
      SegmentDecision(argv, builtin, rules + extra) ==
        if Votes(argv, extra) == {} then before
        else if AllVotes(argv, builtin, rules) == {} then Maximum(Votes(argv, extra))
        else Strictest(before, Maximum(Votes(argv, extra)))
  {
    VotesOfBoth(argv, rules, extra);
    var all := AllVotes(argv, builtin, rules);
    assert AllVotes(argv, builtin, rules + extra) == all + Votes(argv, extra);
    MaximumOfUnion(all, Votes(argv, extra));
    if Votes(argv, extra) == {} {
      assert all + Votes(argv, extra) == all;
    } else if all == {} {
      assert all + Votes(argv, extra) == Votes(argv, extra);
    }
  }

  /** Extra rules lower a segment in one case: nothing matched it, and every extra match allows it. */
  lemma LoweredIff(argv: seq<string>, builtin: Builtin, rules: seq<Rule>, extra: seq<Rule>)
    ensures Rank(SegmentDecision(argv, builtin, rules + extra)) < Rank(SegmentDecision(argv, builtin, rules)) <==>
              AllVotes(argv, builtin, rules) == {} && Votes(argv, extra) == {Allow}
  {
    ExtraRules(argv, builtin, rules, extra);
    var votes := Votes(argv, extra);
    if votes != {} && Maximum(votes) == Allow {
      MaximumIsMaximum(votes, Allow);
      forall d | d in votes ensures d == Allow { MaximumIsMaximum(votes, d); }
      assert votes == {Allow};
    }
  }

  /** The case is possible: a tool no rule knows, and one rule that allows it. */
  lemma OneRuleCanAllow() returns (argv: seq<string>, rules: seq<Rule>, extra: seq<Rule>)
    ensures SegmentDecision(argv, _ => None, rules) == Prompt && SegmentDecision(argv, _ => None, rules + extra) == Allow
  {
    var rule := Rule("allow-helm-list", ["helm", "list"], Allow);
    argv, rules, extra := ["helm", "list", "-A"], [Rule("kubectl-get", ["kubectl", "get"], Allow)], [rule];
    assert !Matches(argv, rules[0]) by { assert argv[0] != rules[0].pattern[0]; }
    assert Matches(argv, rule);
    assert rule in extra && rule.decision in Votes(argv, extra);
    ExtraRules(argv, _ => None, rules, extra);
    assert Votes(argv, extra) == {Allow};
  }

  /** More segments never make a command more acceptable. */
  lemma MoreSegmentsNeverLower(segments: seq<seq<string>>, more: seq<seq<string>>, builtin: Builtin, rules: seq<Rule>)
    requires forall argv :: argv in segments ==> argv in more
    ensures Rank(CommandDecision(segments, builtin, rules)) <= Rank(CommandDecision(more, builtin, rules))
  {
    var a, b := CommandVotes(segments, builtin, rules), CommandVotes(more, builtin, rules);
    assert a <= b;
    MaximumIsMaximum(b, Forbidden);
    MaximumIsMaximum(b, Prompt);
  }

  /** A command is allowed exactly when it parses and every segment is. */
  lemma AllowedMeansEverySegment(command: string, builtin: Builtin, rules: seq<Rule>)
    ensures Decide(command, builtin, rules) == Allow <==>
      Parsed(command).Ok? && forall argv :: argv in Parsed(command).value.segments ==> SegmentDecision(argv, builtin, rules) == Allow
  {
    if Parsed(command).Ok? {
      var segments := Parsed(command).value.segments;
      var votes := CommandVotes(segments, builtin, rules);
      forall argv | argv in segments ensures SegmentDecision(argv, builtin, rules) in votes {}
      MaximumIsMaximum(votes, Prompt);
      MaximumIsMaximum(votes, Forbidden);
    }
  }

  /** Rule `r` is about `argv`: the arguments begin with its pattern. */
  predicate About(r: Rule, argv: seq<string>) {
    |r.pattern| <= |argv| && forall i :: 0 <= i < |r.pattern| ==> argv[i] == r.pattern[i]
  }

  /** The table or a rule says `d` of `argv`. */
  predicate Says(argv: seq<string>, builtin: Builtin, rules: seq<Rule>, d: Decision) {
    builtin(argv) == Some(d) || exists r :: r in rules && About(r, argv) && r.decision == d
  }

  lemma SaysIsVote(argv: seq<string>, builtin: Builtin, rules: seq<Rule>, d: Decision)
    ensures Says(argv, builtin, rules, d) <==> d in AllVotes(argv, builtin, rules)
  {
    forall r ensures About(r, argv) <==> Matches(argv, r) {
      if About(r, argv) { assert r.pattern == argv[..|r.pattern|]; }
      if Matches(argv, r) { assert argv[..|r.pattern|] == r.pattern; }
    }
    if r :| r in rules && About(r, argv) && r.decision == d { assert Matches(argv, r) && r.decision in Votes(argv, rules); }
    if d in Votes(argv, rules) { var r :| r in rules && Matches(argv, r) && r.decision == d; }
  }

  /** One forbidding match forbids a segment; it is allowed when something allows it and nothing says otherwise. */
  lemma SegmentIs(argv: seq<string>, builtin: Builtin, rules: seq<Rule>)
    ensures SegmentDecision(argv, builtin, rules) == Forbidden <==> Says(argv, builtin, rules, Forbidden)
    ensures SegmentDecision(argv, builtin, rules) == Allow <==>
              Says(argv, builtin, rules, Allow) && !Says(argv, builtin, rules, Prompt) && !Says(argv, builtin, rules, Forbidden)
  {
    SaysIsVote(argv, builtin, rules, Allow);
    SaysIsVote(argv, builtin, rules, Prompt);
    SaysIsVote(argv, builtin, rules, Forbidden);
    var votes := AllVotes(argv, builtin, rules);
    if votes != {} {
      var v :| v in votes;
      assert v == Allow || v == Prompt || v == Forbidden;
    }
  }

  /** A command is forbidden exactly when it does not parse or something forbids one of its segments. */
  lemma ForbiddenIff(command: string, builtin: Builtin, rules: seq<Rule>)
    ensures Decide(command, builtin, rules) == Forbidden <==>
      || Parsed(command).Err?
      || exists argv :: argv in Parsed(command).value.segments && Says(argv, builtin, rules, Forbidden)
  {
    if Parsed(command).Ok? {
      var segments := Parsed(command).value.segments;
      var votes := CommandVotes(segments, builtin, rules);
      if argv :| argv in segments && Says(argv, builtin, rules, Forbidden) {
        SegmentIs(argv, builtin, rules);
        assert SegmentDecision(argv, builtin, rules) in votes;
      }
      if Forbidden in votes {
        var argv :| argv in segments && SegmentDecision(argv, builtin, rules) == Forbidden;
        SegmentIs(argv, builtin, rules);
      }
    }
  }

  /** A match of the table is named before the rules, after the command. */
  lemma TableIsNamed(argv: seq<string>, builtin: Builtin, rules: seq<Rule>)
    requires argv != []
    ensures builtin(argv) == None ==> SegmentNames(argv, builtin, rules) == MatchedNames(argv, rules)
    ensures builtin(argv).Some? ==> SegmentNames(argv, builtin, rules)[0] == "builtin:" + argv[0]
                                    && SegmentNames(argv, builtin, rules)[1..] == MatchedNames(argv, rules)
  {
  }

  /** The names reported for a segment are those of the rules about it. */
  lemma {:induction false} NamesAre(argv: seq<string>, rules: seq<Rule>, name: string)
    ensures name in MatchedNames(argv, rules) <==> exists r :: r in rules && Matches(argv, r) && r.name == name
  {
    if rules != [] {
      var n := |rules| - 1;
      NamesAre(argv, rules[..n], name);
      assert rules == rules[..n] + [rules[n]];
      if r :| r in rules && Matches(argv, r) && r.name == name { assert r in rules[..n] || r == rules[n]; }
      if name in MatchedNames(argv, rules) && name !in MatchedNames(argv, rules[..n]) { assert rules[n] in rules; }
    }
  }

  /** What is run is the printed script; within the length limit it gets the decision its original got. */
  lemma ScriptGetsTheSameDecision(command: string, builtin: Builtin, rules: seq<Rule>)
    requires Parsed(command).Ok?
    ensures
      var c := Parsed(command).value;
      |c.operators| + 1 == |c.segments|
      && (|Printed(c.segments, c.operators)| <= MAX_LENGTH ==>
            Decide(Printed(c.segments, c.operators), builtin, rules) == Decide(command, builtin, rules))
  {
    ParsedIsWellFormed(command);
    ParsePrinted(Parsed(command).value);
  }
}
