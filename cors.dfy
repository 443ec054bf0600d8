/**
 * The CORS step of `Initialize`: when the `AllowedOrigins` setting is
 * present and not empty, each of the table and queue services gets a rule
 * allowing those origins, unless one of its rules already lists them.
 *
 * The services are `StorageService` objects whose `corsRules` persist from
 * one run of the program to the next; reading the service properties makes
 * a `ServiceProperties` copy, and saving writes the copy's rules back.
 */
module Cors {
  import opened Sequences
  import opened Wrappers

  // ---------------------------------------------------------------------
  // Splitting a comma-separated list

  /** The first position of `c` in `s`. */
  function IndexOf(s: string, c: char): (i: nat)
    requires c in s
    ensures i < |s| && s[i] == c && c !in s[..i]
  {
    if s[0] == c then 0
    else
      var j := IndexOf(s[1..], c);
      assert s[..j + 1] == [s[0]] + s[1..][..j];
      j + 1
  }

  /**
   * `String.Split` on one separator: the pieces between separators, empty
   * pieces included, so the empty string splits into one empty piece.
   */
  function Split(s: string, sep: char): (parts: seq<string>)
    ensures |parts| >= 1
    ensures forall k :: 0 <= k < |parts| ==> sep !in parts[k]
    decreases |s|
  {
    if sep !in s then [s]
    else
      var i := IndexOf(s, sep);
      [s[..i]] + Split(s[i + 1..], sep)
  }

  /** The pieces put back together, a separator between each two. */
  function Join(parts: seq<string>, sep: char): string
  {
    if |parts| == 0 then ""
    else if |parts| == 1 then parts[0]
    else parts[0] + [sep] + Join(parts[1..], sep)
  }

  /** Splitting loses nothing: the pieces join back into the setting. */
  lemma {:induction false} SplitJoin(s: string, sep: char)
    ensures Join(Split(s, sep), sep) == s
    decreases |s|
  {
    if sep in s {
      var i := IndexOf(s, sep);
      var rest := Split(s[i + 1..], sep);
      SplitJoin(s[i + 1..], sep);
      assert Split(s, sep) == [s[..i]] + rest;
      assert ([s[..i]] + rest)[1..] == rest;
      assert s == s[..i] + [sep] + s[i + 1..];
    }
  }

  /** Pieces without the separator are what splitting their join gives back. */
  lemma {:induction false} JoinSplit(parts: seq<string>, sep: char)
    requires |parts| >= 1
    requires forall k :: 0 <= k < |parts| ==> sep !in parts[k]
    ensures Split(Join(parts, sep), sep) == parts
  {
    if |parts| > 1 {
      var rest := parts[1..];
      var s := Join(parts, sep);
      JoinSplit(rest, sep);
      FirstSeparator(parts, sep);
      SplitAtFirst(s, sep);
      HeadTail(parts);
    }
  }

  /** Splitting cuts at the first separator. */
  lemma SplitAtFirst(s: string, sep: char)
    requires sep in s
    ensures Split(s, sep) == [s[..IndexOf(s, sep)]] + Split(s[IndexOf(s, sep) + 1..], sep)
  {
  }

  /** In a join the first separator is the one after the first piece. */
  lemma FirstSeparator(parts: seq<string>, sep: char)
    requires |parts| > 1 && sep !in parts[0]
    ensures var s := Join(parts, sep);
      sep in s && IndexOf(s, sep) == |parts[0]| &&
      s[..|parts[0]|] == parts[0] && s[|parts[0]| + 1..] == Join(parts[1..], sep)
  {
    var s := Join(parts, sep);
    assert s == parts[0] + [sep] + Join(parts[1..], sep);
    assert s[|parts[0]|] == sep;
    assert s[..|parts[0]|] == parts[0];
    var i := IndexOf(s, sep);
    assert i == |parts[0]| by {
      assert forall j | 0 <= j < |parts[0]| :: s[j] == parts[0][j];
    }
  }

  /** A setting with no comma is one origin. */
  lemma SplitWithoutSeparator(s: string, sep: char)
    requires sep !in s
    ensures Split(s, sep) == [s]
  {
  }

  /** A setting with a comma is none of its own pieces. */
  lemma SettingIsNotAPiece(s: string, sep: char)
    requires sep in s
    ensures s !in Split(s, sep)
  {
  }

  // ---------------------------------------------------------------------
  // Rules

  datatype CorsHttpMethod = Get | Head | Post | Put | Delete | Trace | Options | Connect | Merge

  datatype CorsRule = CorsRule(
    allowedHeaders: seq<string>,
    allowedMethods: set<CorsHttpMethod>,
    exposedHeaders: seq<string>,
    allowedOrigins: seq<string>,
    maxAgeInSeconds: int)

  /** The rule the program adds: any header, four methods, the configured origins, one minute. */
  function NewCorsRule(allowedOrigins: string): (rule: CorsRule)
    ensures rule.allowedOrigins == Split(allowedOrigins, ',')
    ensures rule.allowedMethods == {Get, Post, Delete, Put} && rule.maxAgeInSeconds == 60
    ensures rule.allowedHeaders == ["*"] && rule.exposedHeaders == ["*"]
  {
    CorsRule(["*"], {Get, Post, Delete, Put}, ["*"], Split(allowedOrigins, ','), 60)
  }

  /** The program's test: some rule has the whole setting among its origins. */
  predicate ListsSetting(rules: seq<CorsRule>, allowedOrigins: string)
  {
    exists i | 0 <= i < |rules| :: allowedOrigins in rules[i].allowedOrigins
  }

  /** The rules after the step, as the program writes it. */
  function WithCorsRule(rules: seq<CorsRule>, allowedOrigins: string): seq<CorsRule>
  {
    if ListsSetting(rules, allowedOrigins) then rules else rules + [NewCorsRule(allowedOrigins)]
  }

  /** Some rule allows every origin of the setting. */
  predicate Covers(rules: seq<CorsRule>, allowedOrigins: string)
  {
    exists i | 0 <= i < |rules| :: forall o | o in Split(allowedOrigins, ',') :: o in rules[i].allowedOrigins
  }

  /** The rules after the step, when the test is that some rule already allows every origin. */
  function WithCoveringCorsRule(rules: seq<CorsRule>, allowedOrigins: string): seq<CorsRule>
  {
    if Covers(rules, allowedOrigins) then rules else rules + [NewCorsRule(allowedOrigins)]
  }

  // ---------------------------------------------------------------------
  // Services

  /** A service's persistent CORS configuration. */
  class StorageService {
    var corsRules: seq<CorsRule>

    constructor (rules: seq<CorsRule>)
      ensures corsRules == rules
    {
      corsRules := rules;
    }
  }

  /** A copy of the service properties read from a service. */
  class ServiceProperties {
    var corsRules: seq<CorsRule>

    constructor (rules: seq<CorsRule>)
      ensures corsRules == rules
    {
      corsRules := rules;
    }

    method AddRule(rule: CorsRule)
      modifies this
      ensures corsRules == old(corsRules) + [rule]
    {
      corsRules := corsRules + [rule];
    }
  }

  /**
   * Read the service's properties, add the rule when no rule lists the
   * setting, and save them back only then; `saved` says whether they were.
   */
  method EnsureCorsRule(service: StorageService, allowedOrigins: string) returns (saved: bool)
    modifies service
    ensures saved <==> !ListsSetting(old(service.corsRules), allowedOrigins)
    ensures service.corsRules == WithCorsRule(old(service.corsRules), allowedOrigins)
  {
    var properties := new ServiceProperties(service.corsRules);
    saved := !ListsSetting(properties.corsRules, allowedOrigins);
    if saved {
      properties.AddRule(NewCorsRule(allowedOrigins));
      service.corsRules := properties.corsRules;
    }
  }

  /** The same step, testing whether some rule already allows every origin of the setting. */
  method EnsureCoveringCorsRule(service: StorageService, allowedOrigins: string) returns (saved: bool)
    modifies service
    ensures saved <==> !Covers(old(service.corsRules), allowedOrigins)
    ensures service.corsRules == WithCoveringCorsRule(old(service.corsRules), allowedOrigins)
  {
    var properties := new ServiceProperties(service.corsRules);
    saved := !Covers(properties.corsRules, allowedOrigins);
    if saved {
      properties.AddRule(NewCorsRule(allowedOrigins));
      service.corsRules := properties.corsRules;
    }
  }

  /** An absent or empty setting changes nothing; otherwise both services get the step. */
  method ConfigureCors(allowedOrigins: Option<string>, tableService: StorageService, queueService: StorageService)
    returns (tableSaved: bool, queueSaved: bool)
    requires tableService != queueService
    modifies tableService, queueService
    ensures allowedOrigins == None || allowedOrigins == Some("") ==>
      && !tableSaved && !queueSaved
      && tableService.corsRules == old(tableService.corsRules)
      && queueService.corsRules == old(queueService.corsRules)
    ensures allowedOrigins.Some? && allowedOrigins.value != "" ==>
      && (tableSaved <==> !ListsSetting(old(tableService.corsRules), allowedOrigins.value))
      && (queueSaved <==> !ListsSetting(old(queueService.corsRules), allowedOrigins.value))
      && tableService.corsRules == WithCorsRule(old(tableService.corsRules), allowedOrigins.value)
      && queueService.corsRules == WithCorsRule(old(queueService.corsRules), allowedOrigins.value)
  {
    tableSaved, queueSaved := false, false;
    if allowedOrigins.Some? && allowedOrigins.value != "" {
      tableSaved := EnsureCorsRule(tableService, allowedOrigins.value);
      queueSaved := EnsureCorsRule(queueService, allowedOrigins.value);
    }
  }

  // ---------------------------------------------------------------------
  // Properties of the step

  /** The step only ever appends, and appends at most the one new rule. */
  lemma WithCorsRuleAppends(rules: seq<CorsRule>, allowedOrigins: string)
    ensures var after := WithCorsRule(rules, allowedOrigins);
      && after[..|rules|] == rules
      && |after| <= |rules| + 1
      && (|after| == |rules| + 1 <==> !ListsSetting(rules, allowedOrigins))
  {
  }

  /** With a single origin, the step allows it, and running it again changes nothing. */
  lemma SingleOriginStep(rules: seq<CorsRule>, origin: string)
    requires ',' !in origin
    ensures var after := WithCorsRule(rules, origin);
      && ListsSetting(after, origin)
      && WithCorsRule(after, origin) == after
  {
    var after := WithCorsRule(rules, origin);
    if !ListsSetting(rules, origin) {
      SplitWithoutSeparator(origin, ',');
      assert origin in after[|rules|].allowedOrigins;
    }
  }

  /**
   * With several origins, the added rule never lists the whole setting, so
   * every run adds the same rule again.
   */
  lemma SeveralOriginsRepeatRule(rules: seq<CorsRule>, allowedOrigins: string)
    requires ',' in allowedOrigins
    requires !ListsSetting(rules, allowedOrigins)
    ensures WithCorsRule(WithCorsRule(rules, allowedOrigins), allowedOrigins)
         == rules + [NewCorsRule(allowedOrigins), NewCorsRule(allowedOrigins)]
  {
    var once := rules + [NewCorsRule(allowedOrigins)];
    SettingIsNotAPiece(allowedOrigins, ',');
    assert !ListsSetting(once, allowedOrigins) by {
      forall i | 0 <= i < |once| ensures allowedOrigins !in once[i].allowedOrigins {
        if i < |rules| {
          assert once[i] == rules[i];
        }
      }
    }
  }

  /** The smallest case: two runs with the setting `a,b` leave two identical rules. */
  lemma TwoRunsTwoRules()
    ensures |WithCorsRule(WithCorsRule([], "a,b"), "a,b")| == 2
  {
    assert "a,b"[1] == ',';
    SeveralOriginsRepeatRule([], "a,b");
  }

  /** After the covering step every origin of the setting is allowed by one rule. */
  lemma CoveringStepAllows(rules: seq<CorsRule>, allowedOrigins: string)
    ensures Covers(WithCoveringCorsRule(rules, allowedOrigins), allowedOrigins)
  {
    var after := WithCoveringCorsRule(rules, allowedOrigins);
    if !Covers(rules, allowedOrigins) {
      var rule := NewCorsRule(allowedOrigins);
      assert after == rules + [rule];
      assert after[|rules|] == rule;
      assert forall o | o in Split(allowedOrigins, ',') :: o in after[|rules|].allowedOrigins;
      assert 0 <= |rules| < |after|;
    } else {
      var i :| 0 <= i < |rules| && forall o | o in Split(allowedOrigins, ',') :: o in rules[i].allowedOrigins;
      assert after[i] == rules[i];
    }
  }

  /** Running the covering step twice is running it once. */
  lemma CoveringStepIdempotent(rules: seq<CorsRule>, allowedOrigins: string)
    ensures var after := WithCoveringCorsRule(rules, allowedOrigins);
      WithCoveringCorsRule(after, allowedOrigins) == after
  {
    CoveringStepAllows(rules, allowedOrigins);
  }

  /** For a single origin the covering step is the program's step. */
  lemma CoveringStepAgreesOnSingleOrigin(rules: seq<CorsRule>, origin: string)
    requires ',' !in origin
    ensures WithCoveringCorsRule(rules, origin) == WithCorsRule(rules, origin)
  {
    SplitWithoutSeparator(origin, ',');
    if Covers(rules, origin) {
      var i :| 0 <= i < |rules| && forall o | o in Split(origin, ',') :: o in rules[i].allowedOrigins;
      assert origin in Split(origin, ',');
    }
    if ListsSetting(rules, origin) {
      var i :| 0 <= i < |rules| && origin in rules[i].allowedOrigins;
      assert forall o | o in Split(origin, ',') :: o in rules[i].allowedOrigins;
    }
  }
}
