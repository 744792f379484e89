/** `skupper link update` on Kubernetes: input validation, conversion of the
    flags to options, the update itself, and the wait for the link to reach
    the requested milestone. */
module LinkUpdate {
  import opened Wrappers
  import opened Meta
  import opened Text

  /** `v2alpha1.Link`: the spec fields the command updates and the status conditions. */
  datatype Link = Link(name: string, cost: int, tlsCredentials: string, conditions: seq<Condition>)

  /** What the command can see of one namespace: its sites, its links by name
      and the names of its secrets. */
  datatype Namespace = Namespace(sites: seq<string>, links: map<string, Link>, secrets: set<string>)

  /** `common.CommandLinkUpdateFlags`; the timeout is a whole number of seconds. */
  datatype Flags = Flags(cost: string, tlsCredentials: string, timeout: int, wait: string)

  const LinksResource := "links.skupper.io"
  const SecretsResource := "secrets"

  /** The timeout floor of the validator, in seconds. */
  const MinimumTimeout := 10

  /** `common.WaitStatusTypes`. */
  const WaitStatusTypes := ["ready", "configured", "none"]

  datatype ValidationError =
    | NoSite
    | EmptyName
    | TooManyArguments
    | LinkUnavailable(name: string)
    | SecretUnavailable(name: string)
    | CostNotInteger(cause: NumError)
    | CostNotPositive
    | TimeoutTooShort(given: int)
    | WaitNotAllowed(value: string)

  const CostInvalid := "link cost is not valid: "

  /** The user-facing text of each validation error. */
  function Message(e: ValidationError): string
  {
    match e
    case NoSite => "there is no skupper site in this namespace"
    case EmptyName => "link name must not be empty"
    case TooManyArguments => "only one argument is allowed for this command"
    case LinkUnavailable(name) =>
      "the link " + Quote(name) + " is not available in the namespace: " + ErrorMessage(NotFound(LinksResource, name))
    case SecretUnavailable(name) =>
      "the TLS secret " + Quote(name) + " is not available in the namespace: " + ErrorMessage(NotFound(SecretsResource, name))
    case CostNotInteger(cause) => CostInvalid + NumErrorMessage(cause)
    case CostNotPositive => CostInvalid + "value is not positive"
    case TimeoutTooShort(given) =>
      "timeout is not valid: duration must not be less than " + FormatDuration(MinimumTimeout) + "; got " + FormatDuration(given)
    case WaitNotAllowed(value) =>
      "status is not valid: value " + value + " not allowed. It should be one of this options: " + FormatList(WaitStatusTypes)
  }

  /** Which check an error comes from, in the order the checks run. */
  function Check(e: ValidationError): nat
  {
    match e
    case NoSite => 0
    case EmptyName => 1
    case TooManyArguments => 2
    case LinkUnavailable(_) => 3
    case SecretUnavailable(_) => 4
    case CostNotInteger(_) => 5
    case CostNotPositive => 6
    case TimeoutTooShort(_) => 7
    case WaitNotAllowed(_) => 8
  }

  /** The check a message comes from, told by its last character and, where
      that is shared, by its length or the word after `the`:
      - `y` ends "must not be empty", `]` the wait-status options, `s` the last
        duration of the timeout text and `x` a cost syntax error;
      - `e` ends three texts: the 42 characters of the no-site text, the 45 of
        the not-positive cost text, and any cost range error;
      - every other text ends in `d`: the 45-character too-many-arguments text
        is shorter than the 73 that an unavailable-secret text has at least
        (an unavailable-link text has at least 76), and those two are told
        apart by the fifth character, the `l` of "the link" or the `T` of
        "the TLS secret". */
  function CheckOfText(m: string): nat
  {
    if |m| == 0 then 0
    else
      var last := m[|m| - 1];
      if last == 'y' then 1
      else if last == ']' then 8
      else if last == 's' then 7
      else if last == 'x' then 5
      else if last == 'e' then (if |m| == 42 then 0 else if |m| == 45 then 6 else 5)
      else if |m| < 73 then 2
      else if m[4] == 'l' then 3
      else 4
  }

  lemma CheckRead(e: ValidationError)
    ensures CheckOfText(Message(e)) == Check(e)
  {
    match e
    case NoSite => CheckReadNoSite();
    case EmptyName => CheckReadEmptyName();
    case TooManyArguments => CheckReadTooManyArguments();
    case LinkUnavailable(name) => CheckReadLink(name);
    case SecretUnavailable(name) => CheckReadSecret(name);
    case CostNotInteger(cause) => CheckReadCost(cause);
    case CostNotPositive => CheckReadCostNegative();
    case TimeoutTooShort(given) => CheckReadTimeout(given);
    case WaitNotAllowed(value) => CheckReadWait(value);
  }

  lemma CheckReadNoSite()
    ensures CheckOfText(Message(NoSite)) == 0
  {
  }

  lemma CheckReadEmptyName()
    ensures CheckOfText(Message(EmptyName)) == 1
  {
  }

  lemma CheckReadTooManyArguments()
    ensures CheckOfText(Message(TooManyArguments)) == 2
  {
  }

  lemma CheckReadLink(name: string)
    ensures CheckOfText(Message(LinkUnavailable(name))) == 3
  {
    NotFoundLength(LinksResource, name);
  }

  lemma CheckReadSecret(name: string)
    ensures CheckOfText(Message(SecretUnavailable(name))) == 4
  {
    NotFoundLength(SecretsResource, name);
  }

  lemma CheckReadCost(cause: NumError)
    ensures CheckOfText(Message(CostNotInteger(cause))) == 5
  {
    var m := NumErrorMessage(cause);
    assert m[|m| - 1] == (if cause.SyntaxError? then 'x' else 'e');
  }

  lemma CheckReadCostNegative()
    ensures CheckOfText(Message(CostNotPositive)) == 6
  {
  }

  lemma CheckReadTimeout(given: int)
    ensures CheckOfText(Message(TimeoutTooShort(given))) == 7
  {
    var d := FormatDuration(given);
    assert d[|d| - 1] == 's';
  }

  lemma CheckReadWait(value: string)
    ensures CheckOfText(Message(WaitNotAllowed(value))) == 8
  {
  }

  /** A missing link or secret: the message names it twice, so its length
      and the quoted name tell which one it was. */
  lemma UnavailableInjective(lead: string, resource: string, a: string, b: string)
    requires lead + Quote(a) + " is not available in the namespace: " + ErrorMessage(NotFound(resource, a)) ==
             lead + Quote(b) + " is not available in the namespace: " + ErrorMessage(NotFound(resource, b))
    ensures a == b
  {
    NotFoundLength(resource, a);
    NotFoundLength(resource, b);
    QuotedWithin(lead, a, " is not available in the namespace: ", ErrorMessage(NotFound(resource, a)));
    QuotedWithin(lead, b, " is not available in the namespace: ", ErrorMessage(NotFound(resource, b)));
  }

  lemma NotFoundLength(resource: string, name: string)
    ensures |ErrorMessage(NotFound(resource, name))| == |resource| + |name| + 13
  {
  }

  lemma CostMessageInjective(c1: NumError, c2: NumError)
    ensures Message(CostNotInteger(c1)) == Message(CostNotInteger(c2)) ==> c1 == c2
  {
    var p := CostInvalid;
    assert Message(CostNotInteger(c1))[|p|..] == NumErrorMessage(c1);
    assert Message(CostNotInteger(c2))[|p|..] == NumErrorMessage(c2);
    NumErrorMessageInjective(c1, c2);
  }

  lemma TimeoutMessageInjective(g1: int, g2: int)
    ensures Message(TimeoutTooShort(g1)) == Message(TimeoutTooShort(g2)) ==> g1 == g2
  {
    var p := "timeout is not valid: duration must not be less than " + FormatDuration(MinimumTimeout) + "; got ";
    assert Message(TimeoutTooShort(g1))[|p|..] == FormatDuration(g1);
    assert Message(TimeoutTooShort(g2))[|p|..] == FormatDuration(g2);
    FormatDurationInjective(g1, g2);
  }

  lemma WaitMessageInjective(v1: string, v2: string)
    ensures Message(WaitNotAllowed(v1)) == Message(WaitNotAllowed(v2)) ==> v1 == v2
  {
    var p, t := "status is not valid: value ", " not allowed. It should be one of this options: ";
    MiddleWithin(p, v1, t, FormatList(WaitStatusTypes));
    MiddleWithin(p, v2, t, FormatList(WaitStatusTypes));
  }

  /** Every validation error has its own text: the text tells which check
      failed and on which value. */
  lemma MessageInjective(e1: ValidationError, e2: ValidationError)
    ensures Message(e1) == Message(e2) ==> e1 == e2
  {
    if Message(e1) == Message(e2) {
      CheckRead(e1);
      CheckRead(e2);
      assert Check(e1) == Check(e2);
      match e1
      case LinkUnavailable(a) =>
        UnavailableInjective("the link ", LinksResource, a, e2.name);
      case SecretUnavailable(a) =>
        UnavailableInjective("the TLS secret ", SecretsResource, a, e2.name);
      case CostNotInteger(c) =>
        CostMessageInjective(c, e2.cause);
      case TimeoutTooShort(g) =>
        TimeoutMessageInjective(g, e2.given);
      case WaitNotAllowed(v) =>
        WaitMessageInjective(v, e2.value);
      case _ =>
    }
  }

  function Messages(errs: seq<ValidationError>): (m: seq<string>)
    ensures |m| == |errs| && forall i :: 0 <= i < |errs| ==> m[i] == Message(errs[i])
  {
    if errs == [] then [] else [Message(errs[0])] + Messages(errs[1..])
  }

  /** The text of the joined validation error. */
  function ErrorText(errs: seq<ValidationError>): string
  {
    JoinLines(Messages(errs))
  }

  function SiteErrors(ns: Namespace): (r: seq<ValidationError>)
    ensures forall e :: e in r <==> e == NoSite && |ns.sites| == 0
  {
    if |ns.sites| == 0 then [NoSite] else []
  }

  function ArgumentErrors(args: seq<string>, ns: Namespace): (r: seq<ValidationError>)
    ensures forall e :: e in r <==>
              || (e == EmptyName && |args| == 0)
              || (e == TooManyArguments && |args| > 1)
              || (|args| == 1 && e == LinkUnavailable(args[0]) && args[0] !in ns.links)
  {
    if |args| == 0 then [EmptyName]
    else if |args| > 1 then [TooManyArguments]
    else if args[0] !in ns.links then [LinkUnavailable(args[0])]
    else []
  }

  function SecretErrors(flags: Flags, ns: Namespace): (r: seq<ValidationError>)
    ensures forall e :: e in r <==>
              e == SecretUnavailable(flags.tlsCredentials) && flags.tlsCredentials != "" && flags.tlsCredentials !in ns.secrets
  {
    if flags.tlsCredentials != "" && flags.tlsCredentials !in ns.secrets then [SecretUnavailable(flags.tlsCredentials)] else []
  }

  function CostErrors(cost: string): (r: seq<ValidationError>)
    ensures forall e :: e in r <==>
              || (Atoi(cost).Err? && e == CostNotInteger(Atoi(cost).error))
              || (Atoi(cost).Ok? && Atoi(cost).value < 0 && e == CostNotPositive)
  {
    match Atoi(cost)
    case Err(cause) => [CostNotInteger(cause)]
    case Ok(v) => if v < 0 then [CostNotPositive] else []
  }

  function TimeoutErrors(timeout: int): (r: seq<ValidationError>)
    ensures forall e :: e in r <==> e == TimeoutTooShort(timeout) && timeout < MinimumTimeout
  {
    if timeout < MinimumTimeout then [TimeoutTooShort(timeout)] else []
  }

  function WaitErrors(wait: string): (r: seq<ValidationError>)
    ensures forall e :: e in r <==> e == WaitNotAllowed(wait) && wait != "" && wait !in WaitStatusTypes
  {
    if wait != "" && wait !in WaitStatusTypes then [WaitNotAllowed(wait)] else []
  }

  /** What an acceptable invocation is, stated independently of the checks. */
  predicate InputAccepted(args: seq<string>, flags: Flags, ns: Namespace)
  {
    && |ns.sites| > 0
    && |args| == 1 && args[0] in ns.links
    && (flags.tlsCredentials == "" || flags.tlsCredentials in ns.secrets)
    && Atoi(flags.cost).Ok? && Atoi(flags.cost).value >= 0
    && flags.timeout >= MinimumTimeout
    && (flags.wait == "" || flags.wait in WaitStatusTypes)
  }

  /** `ValidateInput`: every check runs and every failure is reported, in the
      order site, arguments, TLS secret, cost, timeout, wait status. */
  function ValidationErrors(args: seq<string>, flags: Flags, ns: Namespace): (errs: seq<ValidationError>)
    ensures errs == [] <==> InputAccepted(args, flags, ns)
  {
    SiteErrors(ns) + ArgumentErrors(args, ns) + SecretErrors(flags, ns) +
    CostErrors(flags.cost) + TimeoutErrors(flags.timeout) + WaitErrors(flags.wait)
  }

  /** The site check: reported exactly when the namespace has no site. */
  lemma ReportsNoSite(args: seq<string>, flags: Flags, ns: Namespace)
    ensures NoSite in ValidationErrors(args, flags, ns) <==> |ns.sites| == 0
  {
  }

  /** The argument checks: no argument, more than one, or one naming a link
      the namespace does not have; the link is looked up only when exactly
      one argument is given. */
  lemma ReportsEmptyName(args: seq<string>, flags: Flags, ns: Namespace)
    ensures EmptyName in ValidationErrors(args, flags, ns) <==> |args| == 0
  {
  }

  lemma ReportsTooManyArguments(args: seq<string>, flags: Flags, ns: Namespace)
    ensures TooManyArguments in ValidationErrors(args, flags, ns) <==> |args| > 1
  {
  }

  lemma ReportsLinkUnavailable(args: seq<string>, flags: Flags, ns: Namespace)
    ensures forall name :: LinkUnavailable(name) in ValidationErrors(args, flags, ns) <==>
              |args| == 1 && args[0] == name && name !in ns.links
  {
  }

  /** The TLS check: only a non-empty secret name is looked up. */
  lemma ReportsSecret(args: seq<string>, flags: Flags, ns: Namespace)
    ensures forall name :: SecretUnavailable(name) in ValidationErrors(args, flags, ns) <==>
              name == flags.tlsCredentials && name != "" && name !in ns.secrets
  {
  }

  /** The cost checks: a parse failure with its cause, or a negative value;
      never both. */
  lemma ReportsCostSyntax(args: seq<string>, flags: Flags, ns: Namespace)
    ensures forall cause :: CostNotInteger(cause) in ValidationErrors(args, flags, ns) <==> Atoi(flags.cost) == Err(cause)
  {
  }

  lemma ReportsCostNegative(args: seq<string>, flags: Flags, ns: Namespace)
    ensures CostNotPositive in ValidationErrors(args, flags, ns) <==> Atoi(flags.cost).Ok? && Atoi(flags.cost).value < 0
  {
  }

  /** The timeout check: a value under the floor, reported with that value. */
  lemma ReportsTimeout(args: seq<string>, flags: Flags, ns: Namespace)
    ensures forall given :: TimeoutTooShort(given) in ValidationErrors(args, flags, ns) <==>
              given == flags.timeout && flags.timeout < MinimumTimeout
  {
  }

  /** The wait-status check: a non-empty value outside the three options. */
  lemma ReportsWait(args: seq<string>, flags: Flags, ns: Namespace)
    ensures forall value :: WaitNotAllowed(value) in ValidationErrors(args, flags, ns) <==>
              value == flags.wait && value != "" && value !in WaitStatusTypes
  {
  }

  lemma ErrorTextSingle(e: ValidationError)
    ensures ErrorText([e]) == Message(e)
  {
    assert Messages([e]) == [Message(e)];
  }

  function SiteOnly(links: map<string, Link>, secrets: set<string>): Namespace
  {
    Namespace(["the-site"], links, secrets)
  }

  function BareLink(name: string): Link { Link(name, 0, "", []) }

  // The validation table, row by row: the input and the single error it
  // produces (`...Row`) and, for the shorter messages, that error's text
  // (`...Text`).

  lemma NoSiteRow()
    ensures ValidationErrors(["my-link"], Flags("1", "", 60, ""), Namespace([], map["my-link" := BareLink("my-link")], {})) == [NoSite]
  {
  }

  lemma NoSiteText()
    ensures ErrorText([NoSite]) == "there is no skupper site in this namespace"
  {
    ErrorTextSingle(NoSite);
  }

  lemma LinkMissingRow()
    ensures ValidationErrors(["my-link"], Flags("1", "", 60, ""), SiteOnly(map[], {})) == [LinkUnavailable("my-link")]
  {
  }

  lemma LinkMissingText()
    ensures ErrorText([LinkUnavailable("my-link")]) ==
            "the link \"my-link\"" + " is not available in the namespace: " + "links.skupper.io \"my-link\" not found"
  {
    var quoted := Quote("my-link");
    assert quoted == "\"my-link\"";
    assert "the link " + quoted == "the link \"my-link\"";
    assert LinksResource + " " + quoted + " not found" == "links.skupper.io \"my-link\" not found";
    ErrorTextSingle(LinkUnavailable("my-link"));
  }

  lemma SelectedLinkMissingRow()
    ensures ValidationErrors(["my"], Flags("1", "", 60, ""), SiteOnly(map["my-link" := BareLink("my-link")], {})) == [LinkUnavailable("my")]
  {
  }

  lemma SelectedLinkMissingText()
    ensures ErrorText([LinkUnavailable("my")]) ==
            "the link \"my\"" + " is not available in the namespace: " + "links.skupper.io \"my\" not found"
  {
    var quoted := Quote("my");
    assert quoted == "\"my\"";
    assert "the link " + quoted == "the link \"my\"";
    assert LinksResource + " " + quoted + " not found" == "links.skupper.io \"my\" not found";
    ErrorTextSingle(LinkUnavailable("my"));
  }

  lemma EmptyNameRow()
    ensures ValidationErrors([], Flags("1", "", 60, ""), SiteOnly(map["my-link" := BareLink("my-link")], {})) == [EmptyName]
  {
  }

  lemma EmptyNameText()
    ensures ErrorText([EmptyName]) == "link name must not be empty"
  {
    ErrorTextSingle(EmptyName);
  }

  lemma TooManyArgumentsRow()
    ensures ValidationErrors(["my", "link"], Flags("1", "", 60, ""), SiteOnly(map["my-link" := BareLink("my-link")], {})) == [TooManyArguments]
  {
  }

  lemma TooManyArgumentsText()
    ensures ErrorText([TooManyArguments]) == "only one argument is allowed for this command"
  {
    ErrorTextSingle(TooManyArguments);
  }

  lemma CostSyntaxRow()
    ensures ValidationErrors(["my-link"], Flags("one", "", 60, ""), SiteOnly(map["my-link" := BareLink("my-link")], {})) == [CostNotInteger(SyntaxError("one"))]
  {
    assert !IsDigit('o');
    assert !IsDecimal("one");
  }

  lemma CostSyntaxText()
    ensures ErrorText([CostNotInteger(SyntaxError("one"))]) == "link cost is not valid: " + "strconv.Atoi: parsing \"one\": invalid syntax"
  {
    assert NumErrorMessage(SyntaxError("one")) == "strconv.Atoi: parsing \"one\": invalid syntax";
    assert Quote("one") == "\"one\"";
    ErrorTextSingle(CostNotInteger(SyntaxError("one")));
  }

  lemma CostNegativeRow()
    ensures ValidationErrors(["my-link"], Flags("-4", "", 60, ""), SiteOnly(map["my-link" := BareLink("my-link")], {})) == [CostNotPositive]
  {
    assert Magnitude("-4") == "4" && DigitsValue("4") == 4;
  }

  lemma CostNegativeText()
    ensures ErrorText([CostNotPositive]) == "link cost is not valid: value is not positive"
  {
    ErrorTextSingle(CostNotPositive);
  }

  lemma SecretMissingRow()
    ensures ValidationErrors(["my-link"], Flags("1", "secret", 60, ""), SiteOnly(map["my-link" := BareLink("my-link")], {})) == [SecretUnavailable("secret")]
  {
    assert Magnitude("1") == "1" && DigitsValue("1") == 1;
  }

  lemma SecretMissingText()
    ensures ErrorText([SecretUnavailable("secret")]) ==
            "the TLS secret \"secret\"" + " is not available in the namespace: " + "secrets \"secret\" not found"
  {
    var quoted := Quote("secret");
    assert quoted == "\"secret\"";
    assert "the TLS secret " + quoted == "the TLS secret \"secret\"";
    assert SecretsResource + " " + quoted + " not found" == "secrets \"secret\" not found";
    ErrorTextSingle(SecretUnavailable("secret"));
  }

  lemma TimeoutTooShortRow()
    ensures ValidationErrors(["my-link"], Flags("1", "secret", 0, ""), SiteOnly(map["my-link" := BareLink("my-link")], {"secret"})) == [TimeoutTooShort(0)]
  {
    assert Magnitude("1") == "1" && DigitsValue("1") == 1;
  }

  lemma TimeoutTooShortText()
    ensures ErrorText([TimeoutTooShort(0)]) == "timeout is not valid: duration must not be less than 10s; got 0s"
  {
    FormatDurationExamples();
    ErrorTextSingle(TimeoutTooShort(0));
  }

  lemma WaitStatusRow()
    ensures ValidationErrors(["east-link"], Flags("1", "", 60, "created"), SiteOnly(map["east-link" := BareLink("east-link")], {})) == [WaitNotAllowed("created")]
  {
    assert Magnitude("1") == "1" && DigitsValue("1") == 1;
  }

  lemma WaitStatusText()
    ensures ErrorText([WaitNotAllowed("created")]) ==
            "status is not valid: value " + "created" + " not allowed. It should be one of this options: " + "[ready configured none]"
  {
    WaitStatusOptionsText();
    ErrorTextSingle(WaitNotAllowed("created"));
  }

  /** The options a wait status may take, as the message lists them. */
  lemma WaitStatusOptionsText()
    ensures FormatList(WaitStatusTypes) == "[ready configured none]"
  {
    assert WaitStatusTypes[1..] == ["configured", "none"] && WaitStatusTypes[1..][1..] == ["none"];
    assert JoinWith(["configured", "none"], " ") == "configured none";
    assert "[" + "ready " + "configured none" + "]" == "[ready configured none]";
  }

  // ---------------------------------------------------------------------
  // Waiting for a milestone

  /** The condition Type a wait status waits for; `none` waits for nothing,
      `ready` for `Ready`, and any other value for `Configured`. */
  function MilestoneCondition(status: string): (t: Option<string>)
    ensures t.None? <==> status == "none"
    ensures status == "ready" ==> t == Some("Ready")
    ensures status == "configured" ==> t == Some("Configured")
  {
    if status == "none" then None else if status == "ready" then Some("Ready") else Some("Configured")
  }

  /** What one read of the link shows about the awaited condition. */
  datatype Poll =
    | LinkAbsent
    | ConditionMissing
    | ConditionPending
    | ConditionTrue
    | ConditionFalse(reason: string, message: string)

  predicate Terminal(p: Poll) { p.ConditionTrue? || p.ConditionFalse? }

  /** The awaited condition on a link that is there, when it has one. */
  function Awaited(ns: Namespace, linkName: string, conditionType: string): Option<Condition>
    requires linkName in ns.links
  {
    FindCondition(ns.links[linkName].conditions, conditionType)
  }

  /** One read: the link's absence, or what its awaited condition says. */
  function Observe(ns: Namespace, linkName: string, conditionType: string): (p: Poll)
    ensures p == LinkAbsent <==> linkName !in ns.links
    ensures p == ConditionMissing <==> linkName in ns.links && Awaited(ns, linkName, conditionType).None?
    ensures p == ConditionTrue <==>
              linkName in ns.links && Awaited(ns, linkName, conditionType).Some? && Awaited(ns, linkName, conditionType).value.status == True
    ensures p.ConditionFalse? <==>
              linkName in ns.links && Awaited(ns, linkName, conditionType).Some? && Awaited(ns, linkName, conditionType).value.status == False
    ensures p.ConditionFalse? ==>
              p.reason == Awaited(ns, linkName, conditionType).value.reason && p.message == Awaited(ns, linkName, conditionType).value.message
    ensures !Terminal(p) <==>
              || linkName !in ns.links
              || Awaited(ns, linkName, conditionType).None?
              || Awaited(ns, linkName, conditionType).value.status == Unknown
  {
    if linkName !in ns.links then LinkAbsent
    else match Awaited(ns, linkName, conditionType)
      case None => ConditionMissing
      case Some(c) =>
        match c.status
        case True => ConditionTrue
        case False => ConditionFalse(c.reason, c.message)
        case Unknown => ConditionPending
  }

  /** The namespace the k-th read sees: the given snapshots in turn, then the
      last one again; a namespace never shown holds nothing. */
  function SnapshotAt(snapshots: seq<Namespace>, k: nat): Namespace
  {
    if k < |snapshots| then snapshots[k]
    else if snapshots != [] then snapshots[|snapshots| - 1]
    else Namespace([], map[], {})
  }

  function PollAt(snapshots: seq<Namespace>, linkName: string, conditionType: string, k: nat): Poll
  {
    Observe(SnapshotAt(snapshots, k), linkName, conditionType)
  }

  /** Time is counted in milliseconds: the deadline of a timeout given in seconds. */
  function Deadline(timeout: int): (ms: nat)
    ensures timeout > 0 ==> ms % 1000 == 0 && ms / 1000 == timeout
    ensures timeout <= 0 ==> ms == 0
  {
    if timeout <= 0 then 0 else timeout * 1000
  }

  /** How many reads fit: one at every multiple of the interval up to the deadline. */
  function PollCount(deadline: nat, interval: nat): (n: nat)
    requires interval > 0
    ensures n >= 1 && (n - 1) * interval <= deadline < n * interval
  {
    var q := deadline / interval;
    assert q * interval <= deadline < (q + 1) * interval;
    q + 1
  }

  datatype WaitOutcome = Succeeded | ConditionFailed(reason: string, message: string) | TimedOut(last: Poll)

  function OutcomeOf(p: Poll): WaitOutcome
    requires Terminal(p)
  {
    if p.ConditionTrue? then Succeeded else ConditionFailed(p.reason, p.message)
  }

  /** The first `count` reads, in order. */
  function Polls(snapshots: seq<Namespace>, linkName: string, conditionType: string, count: nat): (ps: seq<Poll>)
    ensures |ps| == count
    ensures forall k :: 0 <= k < count ==> ps[k] == PollAt(snapshots, linkName, conditionType, k)
  {
    seq(count, k requires 0 <= k < count => PollAt(snapshots, linkName, conditionType, k))
  }

  /** Goes through `polls` from the k-th until one is terminal or all are
      done; the outcome and the number of reads made in all. */
  function PollFrom(polls: seq<Poll>, k: nat): (r: (WaitOutcome, nat))
    requires k < |polls|
    decreases |polls| - k
    ensures k < r.1 <= |polls|
    ensures r.0.TimedOut? ==> r.1 == |polls| && r.0.last == polls[|polls| - 1] && !Terminal(r.0.last)
    ensures !r.0.TimedOut? ==> Terminal(polls[r.1 - 1]) && r.0 == OutcomeOf(polls[r.1 - 1])
  {
    if Terminal(polls[k]) then (OutcomeOf(polls[k]), k + 1)
    else if k + 1 == |polls| then (TimedOut(polls[k]), k + 1)
    else PollFrom(polls, k + 1)
  }

  lemma MulMonotone(a: nat, b: nat, c: nat)
    requires a <= b
    ensures a * c <= b * c
  {
  }

  /** The wait as a whole: the outcome and the number of store reads. */
  function WaitSpec(status: string, linkName: string, snapshots: seq<Namespace>, timeout: int, interval: nat): (r: (WaitOutcome, nat))
    requires interval > 0
    ensures r.1 <= PollCount(Deadline(timeout), interval)
    ensures r.1 > 0 ==> (r.1 - 1) * interval <= Deadline(timeout)
    ensures r.1 == 0 <==> status == "none"
  {
    match MilestoneCondition(status)
    case None => (Succeeded, 0)
    case Some(t) =>
      var count := PollCount(Deadline(timeout), interval);
      var r := PollFrom(Polls(snapshots, linkName, t, count), 0);
      MulMonotone(r.1 - 1, count - 1, interval);
      r
  }

  /** The first terminal read decides the outcome, and no read follows it. */
  lemma {:induction false} PollFromFirstTerminal(polls: seq<Poll>, k: nat, m: nat)
    requires k <= m < |polls| && Terminal(polls[m])
    requires forall j :: k <= j < m ==> !Terminal(polls[j])
    ensures PollFrom(polls, k) == (OutcomeOf(polls[m]), m + 1)
    decreases m - k
  {
    if k < m {
      assert !Terminal(polls[k]);
      PollFromFirstTerminal(polls, k + 1, m);
    }
  }

  /** With no terminal read, every read is made and the wait times out. */
  lemma {:induction false} PollFromNoTerminal(polls: seq<Poll>, k: nat)
    requires k < |polls|
    requires forall j :: k <= j < |polls| ==> !Terminal(polls[j])
    ensures PollFrom(polls, k) == (TimedOut(polls[|polls| - 1]), |polls|)
    decreases |polls| - k
  {
    if k + 1 < |polls| {
      PollFromNoTerminal(polls, k + 1);
    }
  }

  /** Polling succeeds exactly when some read finds the condition True and
      no earlier read finds it decided. */
  lemma PollFromSucceedsIff(polls: seq<Poll>)
    requires |polls| > 0
    ensures PollFrom(polls, 0).0 == Succeeded <==>
            exists m :: 0 <= m < |polls| && polls[m] == ConditionTrue && forall j :: 0 <= j < m ==> !Terminal(polls[j])
  {
    var r := PollFrom(polls, 0);
    if r.0 == Succeeded {
      var m := r.1 - 1;
      forall j | 0 <= j < m ensures !Terminal(polls[j]) {
        if Terminal(polls[j]) {
          var j0 := FirstTerminalExists(polls, j);
          PollFromFirstTerminal(polls, 0, j0);
        }
      }
      assert polls[m] == ConditionTrue;
    }
    if exists m :: 0 <= m < |polls| && polls[m] == ConditionTrue && forall j :: 0 <= j < m ==> !Terminal(polls[j]) {
      var m :| 0 <= m < |polls| && polls[m] == ConditionTrue && forall j :: 0 <= j < m ==> !Terminal(polls[j]);
      PollFromFirstTerminal(polls, 0, m);
    }
  }

  /** The earliest terminal read at or before a given terminal one. */
  lemma {:induction false} FirstTerminalExists(polls: seq<Poll>, j: nat) returns (m: nat)
    requires j < |polls| && Terminal(polls[j])
    ensures m <= j && Terminal(polls[m])
    ensures forall i :: 0 <= i < m ==> !Terminal(polls[i])
  {
    if exists i :: 0 <= i < j && Terminal(polls[i]) {
      var i :| 0 <= i < j && Terminal(polls[i]);
      m := FirstTerminalExists(polls, i);
    } else {
      m := j;
    }
  }

  /** `none` returns at once, without reading the store. */
  lemma WaitNone(linkName: string, snapshots: seq<Namespace>, timeout: int, interval: nat)
    requires interval > 0
    ensures WaitSpec("none", linkName, snapshots, timeout, interval) == (Succeeded, 0)
  {
  }

  /** A condition already decided at the first read ends the wait after that
      one read: success when True, failure carrying its reason and message
      when False. */
  lemma WaitDecidedAtFirstRead(status: string, linkName: string, snapshots: seq<Namespace>, timeout: int, interval: nat)
    requires interval > 0 && status != "none"
    requires Terminal(PollAt(snapshots, linkName, MilestoneCondition(status).value, 0))
    ensures WaitSpec(status, linkName, snapshots, timeout, interval) ==
            (OutcomeOf(PollAt(snapshots, linkName, MilestoneCondition(status).value, 0)), 1)
  {
    var t := MilestoneCondition(status).value;
    PollFromFirstTerminal(Polls(snapshots, linkName, t, PollCount(Deadline(timeout), interval)), 0, 0);
  }

  /** Waiting for a milestone other than `none` succeeds exactly when, among
      the reads that fit in the deadline, some read sees the condition True
      and no earlier read sees it decided. */
  lemma WaitSucceedsIff(status: string, linkName: string, snapshots: seq<Namespace>, timeout: int, interval: nat)
    requires interval > 0 && status != "none"
    ensures var polls := Polls(snapshots, linkName, MilestoneCondition(status).value, PollCount(Deadline(timeout), interval));
            WaitSpec(status, linkName, snapshots, timeout, interval).0 == Succeeded <==>
              exists m :: 0 <= m < |polls| && polls[m] == ConditionTrue &&
                          forall j :: 0 <= j < m ==> !Terminal(polls[j])
  {
    PollFromSucceedsIff(Polls(snapshots, linkName, MilestoneCondition(status).value, PollCount(Deadline(timeout), interval)));
  }

  /** A link that never appears makes the wait use every read and time out
      on the link's absence. */
  lemma WaitAbsentTimesOut(status: string, linkName: string, snapshots: seq<Namespace>, timeout: int, interval: nat)
    requires interval > 0 && status != "none"
    requires forall k :: 0 <= k < |snapshots| ==> linkName !in snapshots[k].links
    ensures WaitSpec(status, linkName, snapshots, timeout, interval) ==
            (TimedOut(LinkAbsent), PollCount(Deadline(timeout), interval))
  {
    var t := MilestoneCondition(status).value;
    var count := PollCount(Deadline(timeout), interval);
    forall j | 0 <= j < count ensures PollAt(snapshots, linkName, t, j) == LinkAbsent {
      assert linkName !in SnapshotAt(snapshots, j).links;
    }
    PollFromNoTerminal(Polls(snapshots, linkName, t, count), 0);
  }

  /** A condition that no read within the deadline finds decided makes the
      wait use every read and time out on what the last read saw. */
  lemma WaitUndecidedTimesOut(status: string, linkName: string, snapshots: seq<Namespace>, timeout: int, interval: nat)
    requires interval > 0 && status != "none"
    requires forall j :: 0 <= j < PollCount(Deadline(timeout), interval) ==>
               !Terminal(PollAt(snapshots, linkName, MilestoneCondition(status).value, j))
    ensures var count := PollCount(Deadline(timeout), interval);
            WaitSpec(status, linkName, snapshots, timeout, interval) ==
            (TimedOut(PollAt(snapshots, linkName, MilestoneCondition(status).value, count - 1)), count)
  {
    var count := PollCount(Deadline(timeout), interval);
    PollFromNoTerminal(Polls(snapshots, linkName, MilestoneCondition(status).value, count), 0);
  }

  function LinkWith(conditions: seq<Condition>): Namespace
  {
    Namespace(["the-site"], map["my-link" := Link("my-link", 1, "", conditions)], {})
  }

  // The wait table: a link whose awaited condition is True succeeds after one
  // read, one whose condition is False fails after that read, and one without
  // the condition times out after every read.

  lemma WaitReadyRow(interval: nat)
    requires interval > 0
    ensures WaitSpec("ready", "my-link", [LinkWith([Condition("Ready", True, "OK", "OK", 1)])], 1, interval) == (Succeeded, 1)
  {
    var ns := LinkWith([Condition("Ready", True, "OK", "OK", 1)]);
    assert FindCondition(ns.links["my-link"].conditions, "Ready") == Some(Condition("Ready", True, "OK", "OK", 1));
    WaitDecidedAtFirstRead("ready", "my-link", [ns], 1, interval);
  }

  lemma WaitConfiguredRow(interval: nat)
    requires interval > 0
    ensures WaitSpec("configured", "my-link", [LinkWith([Condition("Configured", True, "OK", "OK", 1)])], 1, interval) == (Succeeded, 1)
  {
    var ns := LinkWith([Condition("Configured", True, "OK", "OK", 1)]);
    assert FindCondition(ns.links["my-link"].conditions, "Configured") == Some(Condition("Configured", True, "OK", "OK", 1));
    WaitDecidedAtFirstRead("configured", "my-link", [ns], 1, interval);
  }

  lemma WaitConfiguredFalseRow(interval: nat)
    requires interval > 0
    ensures WaitSpec("configured", "my-link", [LinkWith([Condition("Configured", False, "Error", "Error", 1)])], 1, interval)
            == (ConditionFailed("Error", "Error"), 1)
  {
    var ns := LinkWith([Condition("Configured", False, "Error", "Error", 1)]);
    assert FindCondition(ns.links["my-link"].conditions, "Configured") == Some(Condition("Configured", False, "Error", "Error", 1));
    WaitDecidedAtFirstRead("configured", "my-link", [ns], 1, interval);
  }

  lemma WaitNotConfiguredRow(interval: nat)
    requires interval > 0
    ensures WaitSpec("configured", "my-link", [LinkWith([])], 1, interval) ==
            (TimedOut(ConditionMissing), PollCount(Deadline(1), interval))
  {
    var count := PollCount(Deadline(1), interval);
    forall j | 0 <= j < count ensures PollAt([LinkWith([])], "my-link", "Configured", j) == ConditionMissing {
      assert SnapshotAt([LinkWith([])], j) == LinkWith([]);
    }
    WaitUndecidedTimesOut("configured", "my-link", [LinkWith([])], 1, interval);
  }

  /** The error `WaitUntil` returns for an outcome. */
  function WaitError(linkName: string, timeout: int, outcome: WaitOutcome): (err: Option<string>)
    ensures err.None? <==> outcome == Succeeded
  {
    match outcome
    case Succeeded => None
    case ConditionFailed(reason, message) => Some("Link " + Quote(linkName) + " has an error: " + reason + ": " + message)
    case TimedOut(LinkAbsent) =>
      Some("Link " + Quote(linkName) + " not ready after " + FormatDuration(timeout) + ": " +
           ErrorMessage(NotFound(LinksResource, linkName)))
    case TimedOut(_) =>
      Some("Link " + Quote(linkName) + " not ready after " + FormatDuration(timeout) +
           ", check the status for more information")
  }

  lemma DeadlineReached(k: nat, interval: nat, deadline: nat)
    requires interval > 0
    ensures (k + 1) * interval > deadline <==> k + 1 >= PollCount(deadline, interval)
  {
    var n := PollCount(deadline, interval);
    if k + 1 >= n {
      assert (k + 1) * interval >= n * interval;
    } else {
      assert (k + 1) * interval <= (n - 1) * interval;
    }
  }

  /** `CmdLinkUpdate`: the command's parsed state. */
  class CmdLinkUpdate {
    const namespace: string
    var flags: Flags
    var linkName: string
    var cost: int
    var tlsCredentials: string
    var timeout: int
    var status: string

    constructor (namespace: string, flags: Flags)
      ensures this.namespace == namespace && this.flags == flags
      ensures linkName == "" && cost == 0 && tlsCredentials == "" && timeout == 0 && status == ""
    {
      this.namespace := namespace;
      this.flags := flags;
      linkName, cost, tlsCredentials, timeout, status := "", 0, "", 0, "";
    }

    /** `ValidateInput`: fails with the joined errors, and records the link
        name when exactly one argument is given. */
    method ValidateInput(args: seq<string>, ns: Namespace) returns (err: Option<string>)
      modifies this`linkName
      ensures var errs := ValidationErrors(args, flags, ns);
              err == (if errs == [] then None else Some(ErrorText(errs)))
      ensures linkName == (if |args| == 1 then args[0] else old(linkName))
    {
      var errs := SiteErrors(ns);
      if |args| == 1 {
        linkName := args[0];
      }
      errs := errs + ArgumentErrors(args, ns);
      errs := errs + SecretErrors(flags, ns);
      errs := errs + CostErrors(flags.cost);
      errs := errs + TimeoutErrors(flags.timeout);
      errs := errs + WaitErrors(flags.wait);
      err := if errs == [] then None else Some(ErrorText(errs));
    }

    /** `InputToOptions`: the cost parsed when it parses, the rest verbatim. */
    method InputToOptions()
      modifies this`cost, this`tlsCredentials, this`timeout, this`status
      ensures cost == (if Atoi(flags.cost).Ok? then Atoi(flags.cost).value else old(cost))
      ensures tlsCredentials == flags.tlsCredentials && timeout == flags.timeout && status == flags.wait
    {
      var parsed := Atoi(flags.cost);
      if parsed.Ok? {
        cost := parsed.value;
      }
      tlsCredentials := flags.tlsCredentials;
      timeout := flags.timeout;
      status := flags.wait;
    }

    /** `Run`: fetch the link, set its cost, and its TLS credentials when
        given, and write it back. `fault` is an error every store call reports. */
    method Run(ns: Namespace, fault: Option<string>) returns (updated: Namespace, err: Option<string>)
      ensures fault.Some? ==> updated == ns && err == fault
      ensures fault.None? && linkName !in ns.links ==>
                updated == ns && err == Some(ErrorMessage(NotFound(LinksResource, linkName)))
      ensures fault.None? && linkName in ns.links ==>
                var current := ns.links[linkName];
                err == None &&
                updated == ns.(links := ns.links[linkName := current.(
                  cost := cost,
                  tlsCredentials := if tlsCredentials != "" then tlsCredentials else current.tlsCredentials)])
    {
      if fault.Some? {
        return ns, fault;
      }
      if linkName !in ns.links {
        return ns, Some(ErrorMessage(NotFound(LinksResource, linkName)));
      }
      var current := ns.links[linkName];
      current := current.(cost := cost);
      if tlsCredentials != "" {
        current := current.(tlsCredentials := tlsCredentials);
      }
      updated := ns.(links := ns.links[linkName := current]);
      err := None;
    }

    /** `WaitUntil`: read the link once per poll interval until the awaited
        condition is True (success) or False (failure), or the timeout
        passes. `snapshots` are what successive reads see; `interval` is the
        poll interval in milliseconds. Returns the error and the number of reads made. */
    method WaitUntil(snapshots: seq<Namespace>, interval: nat) returns (err: Option<string>, fetches: nat)
      requires interval > 0
      ensures var (outcome, n) := WaitSpec(status, linkName, snapshots, timeout, interval);
              fetches == n && err == WaitError(linkName, timeout, outcome)
    {
      var milestone := MilestoneCondition(status);
      if milestone.None? {
        return None, 0;
      }
      var conditionType := milestone.value;
      var deadline := Deadline(timeout);
      ghost var count := PollCount(deadline, interval);
      ghost var polls := Polls(snapshots, linkName, conditionType, count);
      var k := 0;
      var elapsed := 0;
      while true
        invariant 0 <= k < count
        invariant elapsed == k * interval
        invariant PollFrom(polls, 0) == PollFrom(polls, k)
        decreases count - k
      {
        var seen := Observe(SnapshotAt(snapshots, k), linkName, conditionType);
        assert seen == polls[k];
        if seen.ConditionTrue? {
          return None, k + 1;
        }
        if seen.ConditionFalse? {
          return WaitError(linkName, timeout, ConditionFailed(seen.reason, seen.message)), k + 1;
        }
        DeadlineReached(k, interval, deadline);
        if elapsed + interval > deadline {
          return WaitError(linkName, timeout, TimedOut(seen)), k + 1;
        }
        k := k + 1;
        elapsed := elapsed + interval;
      }
    }
  }

  /** The conversion table: cost `1`, TLS credentials `secret`, a timeout of
      a minute and status `ready` become the command's options unchanged,
      the cost as the number 1. */
  method InputToOptionsRow() returns (cmd: CmdLinkUpdate)
    ensures cmd.cost == 1 && cmd.tlsCredentials == "secret" && cmd.timeout == 60 && cmd.status == "ready"
  {
    cmd := new CmdLinkUpdate("test", Flags("1", "secret", 60, "ready"));
    assert Magnitude("1") == "1" && DigitsValue("1") == 1;
    cmd.InputToOptions();
  }
}
