/**
 The Linux sandbox helper (crates/ta-linux-sandbox/src/main.rs): its command line, the choice between
 Landlock and bubblewrap, and the command line it builds to run itself again inside bubblewrap. Operating
 system strings are texts; what the kernel, the file system and JSON decoding answer are parameters.
 */
module Sandbox {
  import opened Prelude
  import opened Paths

  datatype NetworkPolicy = Off | Loopback | Allowlist(entries: seq<string>) | Open

  datatype Profile = Profile(
    network: NetworkPolicy, fsRead: seq<OsString>, fsWrite: seq<OsString>, envAllowlist: seq<string>)

  datatype HelperError =
    | MissingProfile
    | MissingSeparator
    | MissingCommand
    | UnexpectedArg(arg: OsString)
    | ProfileJson(reason: string)
    | UnsupportedProfile(why: string)
    | RelativeCommand(command: OsString)
    | RelativeBwrapPath(path: OsString)
    | BwrapCallerEnvUnsupported
    | SystemError(what: string)

  datatype Invocation = Invocation(
    profileJson: OsString, profile: Profile, command: OsString, args: seq<OsString>,
    bwrapChild: bool, callerEnvPresent: bool)

  const PROFILE_ARG: OsString := "--profile-json"
  const BWRAP_CHILD_ARG: OsString := "--bwrap-child"
  const CALLER_ENV_PRESENT_ARG: OsString := "--caller-env-present"
  const ARG_SEPARATOR: OsString := "--"

  lemma FlagsDiffer()
    ensures PROFILE_ARG != BWRAP_CHILD_ARG && PROFILE_ARG != CALLER_ENV_PRESENT_ARG && PROFILE_ARG != ARG_SEPARATOR
    ensures BWRAP_CHILD_ARG != CALLER_ENV_PRESENT_ARG && BWRAP_CHILD_ARG != ARG_SEPARATOR
    ensures CALLER_ENV_PRESENT_ARG != ARG_SEPARATOR
  {
    assert |PROFILE_ARG| == 14 && |BWRAP_CHILD_ARG| == 13 && |CALLER_ENV_PRESENT_ARG| == 20;
  }

  // What the helper's command line means: options, then the separator, then a command and its arguments.

  datatype HelperOption = Child | CallerEnv | ProfileText(json: OsString)

  function Render(o: HelperOption): (words: seq<OsString>)
    ensures words != []
  {
    match o
    case Child => [BWRAP_CHILD_ARG]
    case CallerEnv => [CALLER_ENV_PRESENT_ARG]
    case ProfileText(json) => [PROFILE_ARG, json]
  }

  function RenderAll(options: seq<HelperOption>): seq<OsString> {
    if options == [] then [] else Render(options[0]) + RenderAll(options[1..])
  }

  /** Words that no option can be read from. */
  predicate NoOption(words: seq<OsString>) {
    || words == []
    || (|words| == 1 && words[0] == PROFILE_ARG)
    || (words[0] != BWRAP_CHILD_ARG && words[0] != CALLER_ENV_PRESENT_ARG && words[0] != PROFILE_ARG)
  }

  /** The last profile given counts. */
  function LastProfile(options: seq<HelperOption>): Option<OsString> {
    if options == [] then None
    else if LastProfile(options[1..]).Some? then LastProfile(options[1..])
    else if options[0].ProfileText? then Some(options[0].json)
    else None
  }

  type Decoder = OsString -> Result<Profile, string>

  /** The invocation that some options and the words after them stand for. */
  function Meaning(decode: Decoder, options: seq<HelperOption>, words: seq<OsString>): Result<Invocation, HelperError> {
    if words == [] || words == [PROFILE_ARG] then Err(MissingSeparator)
    else if words[0] != ARG_SEPARATOR then Err(UnexpectedArg(words[0]))
    else if |words| == 1 then Err(MissingCommand)
    else
      match LastProfile(options)
      case None => Err(MissingProfile)
      case Some(json) =>
        match decode(json)
        case Err(reason) => Err(ProfileJson(reason))
        case Ok(profile) =>
          Ok(Invocation(json, profile, words[1], words[2..], Child in options, CallerEnv in options))
  }

  // The parser's loop.

  /** `Invocation::parse` from the point where `words` is left and the flags are as given. */
  function ParseFrom(decode: Decoder, words: seq<OsString>, profileJson: Option<OsString>, child: bool, callerEnv: bool)
    : Result<Invocation, HelperError>
    decreases |words|
  {
    if words == [] then Err(MissingSeparator)
    else if words[0] == BWRAP_CHILD_ARG then ParseFrom(decode, words[1..], profileJson, true, callerEnv)
    else if words[0] == CALLER_ENV_PRESENT_ARG then ParseFrom(decode, words[1..], profileJson, child, true)
    else if words[0] == PROFILE_ARG then
      if |words| == 1 then Err(MissingSeparator)
      else ParseFrom(decode, words[2..], Some(words[1]), child, callerEnv)
    else if words[0] != ARG_SEPARATOR then Err(UnexpectedArg(words[0]))
    else if |words| == 1 then Err(MissingCommand)
    else
      match profileJson
      case None => Err(MissingProfile)
      case Some(json) =>
        match decode(json)
        case Err(reason) => Err(ProfileJson(reason))
        case Ok(profile) => Ok(Invocation(json, profile, words[1], words[2..], child, callerEnv))
  }

  method Parse(decode: Decoder, args: seq<OsString>) returns (r: Result<Invocation, HelperError>)
    ensures r == ParseFrom(decode, if args == [] then [] else args[1..], None, false, false)
  {
    var i := if args == [] then 0 else 1;
    var profileJson: Option<OsString>, child, callerEnv := None, false, false;
    ghost var words := args[i..];
    while i < |args|
      invariant i <= |args|
      invariant ParseFrom(decode, args[i..], profileJson, child, callerEnv) == ParseFrom(decode, words, None, false, false)
    {
      var arg := args[i];
      assert args[i..][1..] == args[i + 1..];
      i := i + 1;
      if arg == BWRAP_CHILD_ARG {
        child := true;
      } else if arg == CALLER_ENV_PRESENT_ARG {
        callerEnv := true;
      } else if arg == PROFILE_ARG {
        profileJson := if i < |args| then Some(args[i]) else None;
        if i < |args| {
          assert args[i - 1..][2..] == args[i + 1..];
          i := i + 1;
        }
      } else if arg == ARG_SEPARATOR {
        if i == |args| { return Err(MissingCommand); }
        if profileJson.None? { return Err(MissingProfile); }
        assert args[i - 1..][2..] == args[i + 1..];
        return match decode(profileJson.value)
          case Err(reason) => Err(ProfileJson(reason))
          case Ok(profile) => Ok(Invocation(profileJson.value, profile, args[i], args[i + 1..], child, callerEnv));
      } else {
        return Err(UnexpectedArg(arg));
      }
    }
    r := Err(MissingSeparator);
  }

  /** What the parser remembers after one more option. */
  lemma ParseStep(decode: Decoder, o: HelperOption, words: seq<OsString>,
                  profileJson: Option<OsString>, child: bool, callerEnv: bool)
    ensures ParseFrom(decode, Render(o) + words, profileJson, child, callerEnv)
         == ParseFrom(decode, words, if o.ProfileText? then Some(o.json) else profileJson,
                      child || o == Child, callerEnv || o == CallerEnv)
  {
    FlagsDiffer();
    assert (Render(o) + words)[|Render(o)|..] == words;
    assert (Render(o) + words)[0] == Render(o)[0];
  }

  lemma {:induction false} ParseReadsOptions(
      decode: Decoder, options: seq<HelperOption>, words: seq<OsString>,
      profileJson: Option<OsString>, child: bool, callerEnv: bool)
    ensures ParseFrom(decode, RenderAll(options) + words, profileJson, child, callerEnv)
         == ParseFrom(decode, words, if LastProfile(options).Some? then LastProfile(options) else profileJson,
                      child || Child in options, callerEnv || CallerEnv in options)
    decreases |options|
  {
    hide ParseFrom;
    if options == [] {
      assert RenderAll(options) + words == words;
    } else {
      var o, rest := options[0], options[1..];
      assert options == [o] + rest;
      assert RenderAll(options) == Render(o) + RenderAll(rest);
      var given := if o.ProfileText? then Some(o.json) else profileJson;
      assert (if LastProfile(rest).Some? then LastProfile(rest) else given)
          == if LastProfile(options).Some? then LastProfile(options) else profileJson;
      hide RenderAll, LastProfile, Render;
      ParseStep(decode, o, RenderAll(rest) + words, profileJson, child, callerEnv);
      ConcatAssociates(Render(o), RenderAll(rest), words);
      ParseReadsOptions(decode, rest, words, given, child || o == Child, callerEnv || o == CallerEnv);
    }
  }

  /** The parser finds the meaning of every command line that is options followed by something else. */
  lemma ParseIsMeaning(decode: Decoder, options: seq<HelperOption>, words: seq<OsString>)
    requires NoOption(words)
    ensures ParseFrom(decode, RenderAll(options) + words, None, false, false) == Meaning(decode, options, words)
  {
    FlagsDiffer();
    ParseReadsOptions(decode, options, words, None, false, false);
  }

  function FirstOption(words: seq<OsString>): (o: HelperOption)
    requires !NoOption(words)
    ensures Render(o) <= words
  {
    FlagsDiffer();
    if words[0] == BWRAP_CHILD_ARG then Child
    else if words[0] == CALLER_ENV_PRESENT_ARG then CallerEnv
    else ProfileText(words[1])
  }

  /** Every command line is of that form. */
  lemma {:induction false} OptionsSplitOff(words: seq<OsString>) returns (options: seq<HelperOption>, tail: seq<OsString>)
    ensures RenderAll(options) + tail == words && NoOption(tail)
    decreases |words|
  {
    if NoOption(words) {
      options, tail := [], words;
    } else {
      hide NoOption;
      var o := FirstOption(words);
      var rest, end := OptionsSplitOff(words[|Render(o)|..]);
      options, tail := [o] + rest, end;
      assert options[1..] == rest;
      assert words == Render(o) + (RenderAll(rest) + tail);
    }
  }

  /** The invocation is what `options`, a separator, and its own command and arguments say. */
  predicate Describes(decode: Decoder, options: seq<HelperOption>, words: seq<OsString>, inv: Invocation) {
    && words == RenderAll(options) + [ARG_SEPARATOR, inv.command] + inv.args
    && LastProfile(options) == Some(inv.profileJson) && decode(inv.profileJson) == Ok(inv.profile)
    && inv.bwrapChild == (Child in options) && inv.callerEnvPresent == (CallerEnv in options)
  }

  lemma MeaningDescribes(decode: Decoder, options: seq<HelperOption>, tail: seq<OsString>, inv: Invocation)
    requires Meaning(decode, options, tail) == Ok(inv)
    ensures Describes(decode, options, RenderAll(options) + tail, inv)
  {
    hide RenderAll, LastProfile;
    assert tail == [ARG_SEPARATOR, inv.command] + inv.args;
    assert RenderAll(options) + tail == RenderAll(options) + [ARG_SEPARATOR, inv.command] + inv.args;
  }

  lemma DescribedIsMeant(decode: Decoder, options: seq<HelperOption>, words: seq<OsString>, inv: Invocation)
    requires Describes(decode, options, words, inv)
    ensures ParseFrom(decode, words, None, false, false) == Ok(inv)
  {
    FlagsDiffer();
    hide RenderAll, LastProfile, ParseFrom;
    var tail := [ARG_SEPARATOR, inv.command] + inv.args;
    assert words == RenderAll(options) + tail && NoOption(tail) && tail[2..] == inv.args;
    ParseIsMeaning(decode, options, tail);
  }

  /** `Invocation::parse` succeeds exactly on options with a decodable profile, a separator, and a command. */
  lemma ParseIsExact(decode: Decoder, words: seq<OsString>, inv: Invocation)
    ensures ParseFrom(decode, words, None, false, false) == Ok(inv) <==>
            exists options :: Describes(decode, options, words, inv)
  {
    hide ParseFrom, RenderAll, LastProfile, Describes, Meaning, NoOption;
    if ParseFrom(decode, words, None, false, false) == Ok(inv) {
      var options, tail := OptionsSplitOff(words);
      ParseIsMeaning(decode, options, tail);
      MeaningDescribes(decode, options, tail, inv);
      assert Describes(decode, options, words, inv);
    }
    if options :| Describes(decode, options, words, inv) {
      DescribedIsMeant(decode, options, words, inv);
    }
  }

  // The choice of sandbox.

  datatype LandlockNetwork = OpenNetwork | DenyTcp | AllowTcpConnect(ports: set<nat>)

  datatype Strategy = Landlock(network: LandlockNetwork) | Bwrap

  const LOOPBACK_UNSUPPORTED: string :=
    "network: Loopback requires address-aware Linux enforcement; Landlock TCP rules are port-only"
  const BWRAP_NETWORK_OFF_ONLY: string :=
    "bwrap fallback supports only network: Off; use Linux 6.7+ for Landlock TCP rules"
  const NOT_A_PORT: string :=
    "network: Allowlist currently supports only TCP port entries such as \"443\" or \"tcp:443\"; " +
    "hostname/IP allowlists are a follow-up"
  const PORT_ZERO: string := "network: Allowlist TCP port 0 is ambiguous in Landlock and is not supported"

  /** `str::parse::<u16>` reads digits after an optional plus sign; a `tcp:` before them is skipped. */
  function ParsePort(entry: string): Result<nat, HelperError> {
    var text := if "tcp:" <= entry then entry[4..] else entry;
    var digits := if "+" <= text then text[1..] else text;
    if digits == [] || (exists c | c in digits :: !IsDigit(c)) then Err(UnsupportedProfile(NOT_A_PORT))
    else if DecimalValue(digits) > 0xFFFF then Err(UnsupportedProfile(NOT_A_PORT))
    else if DecimalValue(digits) == 0 then Err(UnsupportedProfile(PORT_ZERO))
    else Ok(DecimalValue(digits))
  }

  /** Ports are a set here, where the source sorts them and drops repetitions. */
  function ParseAllowlist(entries: seq<string>): Result<set<nat>, HelperError> {
    if entries == [] then Ok({})
    else
      match ParsePort(entries[0])
      case Err(e) => Err(e)
      case Ok(port) =>
        match ParseAllowlist(entries[1..])
        case Err(e) => Err(e)
        case Ok(ports) => Ok({port} + ports)
  }

  /** `landlock_network` */
  function NetworkOf(profile: Profile): Result<LandlockNetwork, HelperError> {
    match profile.network
    case Off => Ok(DenyTcp)
    case Open => Ok(OpenNetwork)
    case Loopback => Err(UnsupportedProfile(LOOPBACK_UNSUPPORTED))
    case Allowlist(entries) =>
      match ParseAllowlist(entries)
      case Err(e) => Err(e)
      case Ok(ports) => Ok(AllowTcpConnect(ports))
  }

  function ValidateBwrapChildProfile(profile: Profile): Result<(), HelperError> {
    if profile.network.Off? then Ok(()) else Err(UnsupportedProfile(BWRAP_NETWORK_OFF_ONLY))
  }

  /**
   What the system answers to the helper's calls: `bwrap` is the search for bubblewrap and for the helper's own
   path, `execBwrap` and `exec` replace the process unless they fail.
   */
  datatype System = System(
    closeFds: Result<(), HelperError>, probe: LandlockNetwork -> Result<bool, HelperError>,
    apply: Result<(), HelperError>, bwrap: Result<Surroundings, HelperError>,
    execBwrap: Result<(), HelperError>, exec: Result<(), HelperError>)

  /** What the helper does to the outside, in order. */
  datatype Effect =
    | CloseFds
    | Probe(network: LandlockNetwork)
    | Apply(profile: Profile, network: LandlockNetwork)
    | Fallback(invocation: Invocation)
    | ExecBwrap(words: seq<OsString>)
    | Exec(command: OsString, args: seq<OsString>)

  /** `decide_sandbox_strategy` */
  function Decide(profile: Profile, sys: System): (r: (seq<Effect>, Result<Strategy, HelperError>)) {
    match NetworkOf(profile)
    case Err(e) => ([], Err(e))
    case Ok(network) =>
      match sys.probe(network)
      case Err(e) => ([Probe(network)], Err(e))
      case Ok(true) => ([Probe(network)], Ok(Landlock(network)))
      case Ok(false) =>
        match ValidateBwrapChildProfile(profile)
        case Err(e) => ([Probe(network)], Err(e))
        case Ok(_) => ([Probe(network)], Ok(Bwrap))
  }

  /** `exec_bwrap_fallback` */
  method ExecBwrapFallback(sys: System, inv: Invocation) returns (effects: seq<Effect>, r: Result<(), HelperError>)
    ensures (effects, r) == FallbackResult(sys, inv)
  {
    effects := [Fallback(inv)];
    var valid := ValidateBwrapChildProfile(inv.profile);
    if valid.Err? { return effects, Err(valid.error); }
    if sys.bwrap.Err? { return effects, Err(sys.bwrap.error); }
    var words := BuildBwrapArgs(inv, sys.bwrap.value);
    if words.Err? { return effects, Err(words.error); }
    effects := effects + [ExecBwrap(words.value)];
    r := sys.execBwrap;
  }

  function FallbackResult(sys: System, inv: Invocation): (seq<Effect>, Result<(), HelperError>) {
    match ValidateBwrapChildProfile(inv.profile)
    case Err(e) => ([Fallback(inv)], Err(e))
    case Ok(_) =>
      match sys.bwrap
      case Err(e) => ([Fallback(inv)], Err(e))
      case Ok(around) =>
        match BwrapWords(inv, around)
        case Err(e) => ([Fallback(inv)], Err(e))
        case Ok(words) => ([Fallback(inv)] + [ExecBwrap(words)], sys.execBwrap)
  }

  /** `run_with_hooks`; `Ok` means that something else was executed in place of the process. */
  method Run(decode: Decoder, sys: System, args: seq<OsString>) returns (effects: seq<Effect>, r: Result<(), HelperError>)
    ensures (effects, r) == RunResult(decode, sys, if args == [] then [] else args[1..])
    ensures match ParseFrom(decode, if args == [] then [] else args[1..], None, false, false)
            case Err(e) => effects == [] && r == Err(e)
            case Ok(inv) => Confined(sys, inv, effects, r)
  {
    if args == [] { RunsAreConfined(decode, sys, []); } else { RunsAreConfined(decode, sys, args[1..]); }
    hide Confined, FallbackResult;
    effects := [];
    var parsed := Parse(decode, args);
    if parsed.Err? { return effects, Err(parsed.error); }
    var inv := parsed.value;
    if !IsAbsolute(inv.command) { return effects, Err(RelativeCommand(inv.command)); }
    effects := [CloseFds];
    if sys.closeFds.Err? { return effects, Err(sys.closeFds.error); }
    if inv.bwrapChild {
      var valid := ValidateBwrapChildProfile(inv.profile);
      if valid.Err? { return effects, Err(valid.error); }
    } else {
      var (probes, strategy) := Decide(inv.profile, sys);
      effects := effects + probes;
      if strategy.Err? { return effects, Err(strategy.error); }
      match strategy.value {
        case Landlock(network) =>
          effects := effects + [Apply(inv.profile, network)];
          if sys.apply.Err? { return effects, Err(sys.apply.error); }
        case Bwrap =>
          var fallback, fallen := ExecBwrapFallback(sys, inv);
          return effects + fallback, fallen;
      }
    }
    effects := effects + [Exec(inv.command, inv.args)];
    r := sys.exec;
  }

  /** What a run does, as a function of the words after the program name. */
  function RunResult(decode: Decoder, sys: System, words: seq<OsString>): (seq<Effect>, Result<(), HelperError>) {
    match ParseFrom(decode, words, None, false, false)
    case Err(e) => ([], Err(e))
    case Ok(inv) => if IsAbsolute(inv.command) then RunInvocation(sys, inv) else ([], Err(RelativeCommand(inv.command)))
  }

  function RunInvocation(sys: System, inv: Invocation): (seq<Effect>, Result<(), HelperError>) {
    if sys.closeFds.Err? then ([CloseFds], Err(sys.closeFds.error))
    else if inv.bwrapChild then
      match ValidateBwrapChildProfile(inv.profile)
      case Err(e) => ([CloseFds], Err(e))
      case Ok(_) => ([CloseFds] + [Exec(inv.command, inv.args)], sys.exec)
    else
      var (probes, strategy) := Decide(inv.profile, sys);
      match strategy
      case Err(e) => ([CloseFds] + probes, Err(e))
      case Ok(Bwrap) => ([CloseFds] + probes + FallbackResult(sys, inv).0, FallbackResult(sys, inv).1)
      case Ok(Landlock(network)) =>
        var applied := [CloseFds] + probes + [Apply(inv.profile, network)];
        if sys.apply.Err? then (applied, Err(sys.apply.error))
        else (applied + [Exec(inv.command, inv.args)], sys.exec)
  }

  /** The fallback is entered. */
  predicate FallsBack(sys: System, inv: Invocation) {
    && IsAbsolute(inv.command) && sys.closeFds.Ok?
    && !inv.bwrapChild && inv.profile.network.Off? && sys.probe(DenyTcp) == Ok(false)
  }

  /** The command is executed: by bubblewrap's child, or after Landlock took the profile. */
  predicate Executes(sys: System, inv: Invocation) {
    && IsAbsolute(inv.command) && sys.closeFds.Ok?
    && if inv.bwrapChild then inv.profile.network.Off?
       else NetworkOf(inv.profile).Ok? && sys.probe(NetworkOf(inv.profile).value) == Ok(true) && sys.apply.Ok?
  }

  /** Executing something in place of the process. */
  predicate IsHandover(effect: Effect) {
    effect.Exec? || effect.ExecBwrap?
  }

  /** The handover that succeeds. */
  predicate HandsOver(sys: System, effect: Effect) {
    (effect.Exec? && sys.exec.Ok?) || (effect.ExecBwrap? && sys.execBwrap.Ok?)
  }

  /**
   What a run does, whatever the system answers: descriptors are closed before anything else, only the last step
   hands over, and the run succeeds iff that handover does. The command runs only after its own profile was
   applied or as bubblewrap's child, which enters no sandbox again; bubblewrap runs only from the fallback, on
   the command line built for it.
   */
  ghost predicate Confined(sys: System, inv: Invocation, effects: seq<Effect>, r: Result<(), HelperError>) {
    && (effects != [] ==> effects[0] == CloseFds && IsAbsolute(inv.command))
    && (forall i | 0 <= i < |effects| && IsHandover(effects[i]) :: i == |effects| - 1)
    && (r.Ok? <==> effects != [] && HandsOver(sys, effects[|effects| - 1]))
    && (forall e | e in effects && e.Exec? :: e == Exec(inv.command, inv.args))
    && (forall e | e in effects && e.Fallback? :: e == Fallback(inv))
    && (forall words :: ExecBwrap(words) in effects <==>
          FallsBack(sys, inv) && sys.bwrap.Ok? && BwrapWords(inv, sys.bwrap.value) == Ok(words))
    && (Fallback(inv) in effects <==> FallsBack(sys, inv))
    && (Exec(inv.command, inv.args) in effects <==> Executes(sys, inv))
    && (Exec(inv.command, inv.args) in effects && !inv.bwrapChild ==>
          |effects| >= 2 && effects[|effects| - 2] == Apply(inv.profile, NetworkOf(inv.profile).value))
    && (inv.bwrapChild ==> forall e | e in effects :: e.CloseFds? || e.Exec?)
  }

  lemma RunsAreConfined(decode: Decoder, sys: System, words: seq<OsString>)
    ensures match ParseFrom(decode, words, None, false, false)
            case Err(e) => RunResult(decode, sys, words) == ([], Err(e))
            case Ok(inv) =>
              var (effects, r) := RunResult(decode, sys, words);
              Confined(sys, inv, effects, r)
  {
    hide ParseFrom, RunInvocation, BwrapWords;
    var parsed := ParseFrom(decode, words, None, false, false);
    if parsed.Ok? && IsAbsolute(parsed.value.command) {
      if parsed.value.bwrapChild { ChildIsConfined(sys, parsed.value); } else { ParentIsConfined(sys, parsed.value); }
    }
  }

  lemma ChildIsConfined(sys: System, inv: Invocation)
    requires IsAbsolute(inv.command) && inv.bwrapChild
    ensures var (effects, r) := RunInvocation(sys, inv);
            Confined(sys, inv, effects, r)
  {
    hide NetworkOf, FallbackResult, BwrapWords, Decide;
  }

  lemma ParentIsConfined(sys: System, inv: Invocation)
    requires IsAbsolute(inv.command) && !inv.bwrapChild
    ensures var (effects, r) := RunInvocation(sys, inv);
            Confined(sys, inv, effects, r)
  {
    assert inv.profile.network.Off? ==> NetworkOf(inv.profile) == Ok(DenyTcp);
    hide NetworkOf, Confined, RunInvocation, Decide;
    var (probes, strategy) := Decide(inv.profile, sys);
    if sys.closeFds.Err? || strategy.Err? {
      UndecidedIsConfined(sys, inv);
    } else if strategy.value.Landlock? {
      LandlockIsConfined(sys, inv, strategy.value.network);
    } else {
      BwrapIsConfined(sys, inv);
    }
  }

  lemma UndecidedIsConfined(sys: System, inv: Invocation)
    requires IsAbsolute(inv.command) && !inv.bwrapChild && (sys.closeFds.Err? || Decide(inv.profile, sys).1.Err?)
    requires inv.profile.network.Off? ==> NetworkOf(inv.profile) == Ok(DenyTcp)
    ensures var (effects, r) := RunInvocation(sys, inv);
            Confined(sys, inv, effects, r)
  {
    hide NetworkOf, BwrapWords, FallbackResult;
  }

  lemma LandlockIsConfined(sys: System, inv: Invocation, network: LandlockNetwork)
    requires IsAbsolute(inv.command) && !inv.bwrapChild && sys.closeFds.Ok?
    requires Decide(inv.profile, sys).1 == Ok(Landlock(network))
    requires inv.profile.network.Off? ==> NetworkOf(inv.profile) == Ok(DenyTcp)
    ensures var (effects, r) := RunInvocation(sys, inv);
            Confined(sys, inv, effects, r)
  {
    hide NetworkOf, BwrapWords, FallbackResult;
    assert Decide(inv.profile, sys).0 == [Probe(network)];
  }

  lemma BwrapIsConfined(sys: System, inv: Invocation)
    requires IsAbsolute(inv.command) && !inv.bwrapChild && sys.closeFds.Ok?
    requires Decide(inv.profile, sys).1 == Ok(Bwrap)
    requires inv.profile.network.Off? ==> NetworkOf(inv.profile) == Ok(DenyTcp)
    ensures var (effects, r) := RunInvocation(sys, inv);
            Confined(sys, inv, effects, r)
  {
    hide NetworkOf, BwrapWords;
    assert Decide(inv.profile, sys).0 == [Probe(DenyTcp)] && inv.profile.network.Off?;
    hide Decide;
    if sys.bwrap.Ok? && BwrapWords(inv, sys.bwrap.value).Ok? {
      var words := BwrapWords(inv, sys.bwrap.value).value;
      assert RunInvocation(sys, inv) ==
             ([CloseFds] + [Probe(DenyTcp)] + ([Fallback(inv)] + [ExecBwrap(words)]), sys.execBwrap);
    } else {
      assert RunInvocation(sys, inv).0 == [CloseFds] + [Probe(DenyTcp)] + [Fallback(inv)];
    }
  }

  // The command line that runs the helper again inside bubblewrap.

  datatype BwrapOption =
    | UnshareUser
    | UnshareNet
    | DieWithParent
    | ClearEnv
    | SetEnv(name: string, value: OsString)
    | RoBind(path: OsString)
    | Bind(path: OsString)
    | Proc
    | Dev

  function RenderBwrap(o: BwrapOption): seq<OsString> {
    match o
    case UnshareUser => ["--unshare-user"]
    case UnshareNet => ["--unshare-net"]
    case DieWithParent => ["--die-with-parent"]
    case ClearEnv => ["--clearenv"]
    case SetEnv(name, value) => ["--setenv", name, value]
    case RoBind(path) => ["--ro-bind", path, path]
    case Bind(path) => ["--bind", path, path]
    case Proc => ["--proc", "/proc"]
    case Dev => ["--dev", "/dev"]
  }

  function RenderBwrapAll(options: seq<BwrapOption>): seq<OsString> {
    if options == [] then [] else RenderBwrapAll(options[..|options| - 1]) + RenderBwrap(options[|options| - 1])
  }

  lemma RenderBwrapSnoc(options: seq<BwrapOption>, o: BwrapOption)
    ensures RenderBwrapAll(options + [o]) == RenderBwrapAll(options) + RenderBwrap(o)
  {
    assert (options + [o])[..|options|] == options;
  }

  const BASE_ENV: seq<string> := ["PATH", "HOME", "LANG", "TMPDIR"]

  const PLATFORM_RO_PATHS: seq<OsString> :=
    ["/bin", "/sbin", "/usr", "/etc", "/lib", "/lib64", "/nix/store", "/run/current-system/sw"]

  /** What the helper finds around it: its own path, its parent's environment, and the paths that exist. */
  datatype Surroundings = Surroundings(helper: OsString, env: map<string, OsString>, existing: set<OsString>)

  /** The words from the helper's path on. */
  function ChildWords(inv: Invocation): seq<OsString> {
    [BWRAP_CHILD_ARG, PROFILE_ARG, inv.profileJson, ARG_SEPARATOR, inv.command] + inv.args
  }

  function FirstRelative(paths: seq<OsString>): (p: Option<OsString>)
    ensures p.None? <==> forall path | path in paths :: IsAbsolute(path)
    ensures p.Some? ==> p.value in paths && !IsAbsolute(p.value)
  {
    if paths == [] then None else if !IsAbsolute(paths[0]) then Some(paths[0]) else FirstRelative(paths[1..])
  }

  /** The environment the child gets: the allowed names among the base ones that the parent has, in order. */
  function AllowedEnv(names: seq<string>, env: map<string, OsString>): seq<BwrapOption> {
    if names == [] then []
    else
      var name := names[|names| - 1];
      AllowedEnv(names[..|names| - 1], env) + if name in BASE_ENV && name in env then [SetEnv(name, env[name])] else []
  }

  /** The paths the child may write, and those it may read. */
  function Writable(profile: Profile): seq<OsString> {
    PathSet(profile.fsWrite)
  }

  function Among(existing: set<OsString>): OsString -> bool {
    p => p in existing
  }

  function OtherThan(paths: seq<OsString>): OsString -> bool {
    p => !Contains(paths, p)
  }

  function ReadPaths(profile: Profile, around: Surroundings): seq<OsString> {
    Filter(Among(around.existing), PLATFORM_RO_PATHS) + [around.helper] + profile.fsRead
  }

  function ReadOnly(profile: Profile, around: Surroundings): seq<OsString> {
    Filter(OtherThan(Writable(profile)), PathSet(ReadPaths(profile, around)))
  }

  function BindOption(path: OsString, writable: bool): BwrapOption {
    if writable then Bind(path) else RoBind(path)
  }

  function Binds(paths: seq<OsString>, writable: bool): (binds: seq<BwrapOption>)
    ensures |binds| == |paths| && forall i | 0 <= i < |paths| :: binds[i] == BindOption(paths[i], writable)
  {
    if paths == [] then [] else Binds(paths[..|paths| - 1], writable) + [BindOption(paths[|paths| - 1], writable)]
  }

  lemma {:induction false} RenderBwrapAppend(a: seq<BwrapOption>, b: seq<BwrapOption>)
    ensures RenderBwrapAll(a + b) == RenderBwrapAll(a) + RenderBwrapAll(b)
    decreases |b|
  {
    if b == [] {
      assert a + b == a;
    } else {
      hide RenderBwrap, RenderBwrapAll;
      var front, last := b[..|b| - 1], b[|b| - 1];
      assert b == front + [last];
      RenderBwrapAppend(a, front);
      RenderBwrapSnoc(a + front, last);
      RenderBwrapSnoc(front, last);
      ConcatAssociates(a, front, [last]);
      ConcatAssociates(RenderBwrapAll(a), RenderBwrapAll(front), RenderBwrap(last));
    }
  }

  lemma BindWordsSnoc(paths: seq<OsString>, p: OsString, writable: bool)
    ensures RenderBwrapAll(Binds(paths + [p], writable))
         == RenderBwrapAll(Binds(paths, writable)) + RenderBwrap(BindOption(p, writable))
  {
    hide RenderBwrap, BindOption, RenderBwrapAll;
    assert (paths + [p])[..|paths|] == paths;
    RenderBwrapSnoc(Binds(paths, writable), BindOption(p, writable));
  }

  lemma ReadOnlyStep(paths: seq<OsString>, i: nat, writable: seq<OsString>)
    requires i < |paths|
    ensures RenderBwrapAll(Binds(Filter(OtherThan(writable), paths[..i + 1]), false))
         == RenderBwrapAll(Binds(Filter(OtherThan(writable), paths[..i]), false))
            + if Contains(writable, paths[i]) then [] else RenderBwrap(RoBind(paths[i]))
  {
    assert paths[..i + 1] == paths[..i] + [paths[i]];
    hide RenderBwrap, RenderBwrapAll, Binds, Filter, Contains;
    FilterSnoc(OtherThan(writable), paths[..i], paths[i]);
    var kept := Filter(OtherThan(writable), paths[..i]);
    if Contains(writable, paths[i]) { assert kept + [] == kept; } else { BindWordsSnoc(kept, paths[i], false); }
  }

  /** The loop over the readable paths. */
  method AppendReadOnlyBinds(paths: seq<OsString>, writable: seq<OsString>) returns (words: seq<OsString>)
    ensures words == RenderBwrapAll(Binds(Filter(OtherThan(writable), paths), false))
  {
    words := [];
    assert paths[..0] == [];
    assert RenderBwrapAll(Binds(Filter(OtherThan(writable), []), false)) == [];
    assert paths[..|paths|] == paths;
    hide RenderBwrap, RenderBwrapAll, Binds, Filter, OtherThan, Contains;
    for i := 0 to |paths|
      invariant words == RenderBwrapAll(Binds(Filter(OtherThan(writable), paths[..i]), false))
    {
      ReadOnlyStep(paths, i, writable);
      if !Contains(writable, paths[i]) { words := words + RenderBwrap(RoBind(paths[i])); }
    }
  }

  lemma WritableStep(paths: seq<OsString>, i: nat)
    requires i < |paths|
    ensures RenderBwrapAll(Binds(paths[..i + 1], true))
         == RenderBwrapAll(Binds(paths[..i], true)) + RenderBwrap(Bind(paths[i]))
  {
    assert paths[..i + 1] == paths[..i] + [paths[i]];
    hide RenderBwrap, RenderBwrapAll, Binds;
    BindWordsSnoc(paths[..i], paths[i], true);
  }

  /** The loop over the writable paths. */
  method AppendWritableBinds(paths: seq<OsString>) returns (words: seq<OsString>)
    ensures words == RenderBwrapAll(Binds(paths, true))
  {
    words := [];
    assert paths[..0] == [] && paths[..|paths|] == paths;
    assert RenderBwrapAll(Binds([], true)) == [];
    hide RenderBwrap, RenderBwrapAll, Binds;
    for i := 0 to |paths|
      invariant words == RenderBwrapAll(Binds(paths[..i], true))
    {
      WritableStep(paths, i);
      words := words + RenderBwrap(Bind(paths[i]));
    }
  }

  /** The loops over a profile's paths: each is checked and inserted. */
  method InsertAbsolute(into: seq<OsString>, ghost added: seq<OsString>, paths: seq<OsString>)
    returns (r: Result<seq<OsString>, HelperError>)
    requires into == PathSet(added)
    ensures match FirstRelative(paths)
            case Some(p) => r == Err(RelativeBwrapPath(p))
            case None => r == Ok(PathSet(added + paths))
  {
    var all := into;
    assert paths[..0] == [] && added + [] == added && paths[0..] == paths;
    assert paths[..|paths|] == paths && paths[|paths|..] == [];
    hide PathSet, Insert;
    for i := 0 to |paths|
      invariant FirstRelative(paths) == FirstRelative(paths[i..])
      invariant all == PathSet(added + paths[..i])
    {
      assert paths[i..][1..] == paths[i + 1..];
      if !IsAbsolute(paths[i]) { return Err(RelativeBwrapPath(paths[i])); }
      hide FirstRelative;
      PathSetStep(added, paths, i);
      all := Insert(all, paths[i]);
    }
    r := Ok(all);
  }

  lemma PathSetStep(added: seq<OsString>, paths: seq<OsString>, i: nat)
    requires i < |paths|
    ensures PathSet(added + paths[..i + 1]) == Insert(PathSet(added + paths[..i]), paths[i])
  {
    assert added + paths[..i + 1] == added + paths[..i] + [paths[i]];
    PathSetSnoc(added + paths[..i], paths[i]);
  }

  /** The platform's read-only paths that exist. */
  method InsertPlatform(existing: set<OsString>) returns (paths: seq<OsString>)
    ensures paths == PathSet(Filter(Among(existing), PLATFORM_RO_PATHS))
  {
    paths := [];
    var platform := PLATFORM_RO_PATHS;
    assert platform[..0] == [] && platform[..|platform|] == platform;
    assert PathSet(Filter(Among(existing), [])) == [];
    hide PathSet, Insert, Filter, Among, PLATFORM_RO_PATHS;
    for i := 0 to |platform|
      invariant paths == PathSet(Filter(Among(existing), platform[..i]))
    {
      PlatformStep(existing, platform, i);
      if platform[i] in existing { paths := Insert(paths, platform[i]); }
    }
  }

  lemma PlatformStep(existing: set<OsString>, platform: seq<OsString>, i: nat)
    requires i < |platform|
    ensures PathSet(Filter(Among(existing), platform[..i + 1])) ==
            var before := PathSet(Filter(Among(existing), platform[..i]));
            if platform[i] in existing then Insert(before, platform[i]) else before
  {
    assert platform[..i + 1] == platform[..i] + [platform[i]];
    hide PathSet, Insert, Filter;
    FilterSnoc(Among(existing), platform[..i], platform[i]);
    var present := Filter(Among(existing), platform[..i]);
    if platform[i] in existing { PathSetSnoc(present, platform[i]); } else { assert present + [] == present; }
  }

  /** `append_bwrap_binds`, the words for the binds or the first path that is not absolute. */
  method BindWords(profile: Profile, around: Surroundings) returns (r: Result<seq<OsString>, HelperError>)
    ensures match FirstRelative(profile.fsWrite + profile.fsRead)
            case Some(p) => r == Err(RelativeBwrapPath(p))
            case None =>
              r == Ok(RenderBwrapAll(Binds(ReadOnly(profile, around), false) + Binds(Writable(profile), true)))
  {
    FirstRelativeAppend(profile.fsWrite, profile.fsRead);
    assert PathSet([]) == [] && [] + profile.fsWrite == profile.fsWrite;
    hide RenderBwrapAll, Binds, PathSet, Insert, Filter, Contains, FirstRelative;
    var writable := InsertAbsolute([], [], profile.fsWrite);
    if writable.Err? { return writable; }
    var platform := InsertPlatform(around.existing);
    ghost var present := Filter(Among(around.existing), PLATFORM_RO_PATHS);
    PathSetSnoc(present, around.helper);
    var readable := InsertAbsolute(Insert(platform, around.helper), present + [around.helper], profile.fsRead);
    if readable.Err? { return readable; }
    var readWords := AppendReadOnlyBinds(readable.value, writable.value);
    var writeWords := AppendWritableBinds(writable.value);
    RenderBwrapAppend(Binds(ReadOnly(profile, around), false), Binds(Writable(profile), true));
    r := Ok(readWords + writeWords);
  }

  lemma AllowedEnvStep(names: seq<string>, env: map<string, OsString>, i: nat)
    requires i < |names|
    ensures RenderBwrapAll(AllowedEnv(names[..i + 1], env))
         == RenderBwrapAll(AllowedEnv(names[..i], env))
            + if names[i] in BASE_ENV && names[i] in env then ["--setenv", names[i], env[names[i]]] else []
  {
    var before, name := AllowedEnv(names[..i], env), names[i];
    assert names[..i + 1][..i] == names[..i];
    hide RenderBwrapAll, BASE_ENV;
    if name in BASE_ENV && name in env {
      RenderBwrapSnoc(before, SetEnv(name, env[name]));
    } else {
      assert before + [] == before && RenderBwrapAll(before) + [] == RenderBwrapAll(before);
    }
  }

  /** `append_allowed_base_env` */
  method AppendAllowedEnv(names: seq<string>, env: map<string, OsString>) returns (words: seq<OsString>)
    ensures words == RenderBwrapAll(AllowedEnv(names, env))
  {
    words := [];
    assert names[..0] == [] && names[..|names|] == names;
    hide RenderBwrap, RenderBwrapAll, BASE_ENV;
    assert RenderBwrapAll(AllowedEnv([], env)) == [] by { NothingRendered(); }
    hide AllowedEnv;
    for i := 0 to |names|
      invariant words == RenderBwrapAll(AllowedEnv(names[..i], env))
    {
      AllowedEnvStep(names, env, i);
      if names[i] in BASE_ENV && names[i] in env { words := words + ["--setenv", names[i], env[names[i]]]; }
    }
  }

  lemma NothingRendered()
    ensures RenderBwrapAll([]) == []
  {
  }

  /** What bubblewrap is told before the helper's own command line: always a network of its own and no environment. */
  function BwrapOptions(profile: Profile, around: Surroundings): seq<BwrapOption> {
    [UnshareUser, UnshareNet, DieWithParent, ClearEnv] + AllowedEnv(profile.envAllowlist, around.env)
    + (Binds(ReadOnly(profile, around), false) + Binds(Writable(profile), true)) + [Proc, Dev]
  }

  /** The command line for bubblewrap, or the refusal to build it. */
  function BwrapWords(inv: Invocation, around: Surroundings): Result<seq<OsString>, HelperError> {
    if inv.callerEnvPresent then Err(BwrapCallerEnvUnsupported)
    else
      match FirstRelative(inv.profile.fsWrite + inv.profile.fsRead)
      case Some(p) => Err(RelativeBwrapPath(p))
      case None => Ok(RenderBwrapAll(BwrapOptions(inv.profile, around)) + [around.helper] + ChildWords(inv))
  }

  /** `build_bwrap_args_with_env` */
  method BuildBwrapArgs(inv: Invocation, around: Surroundings) returns (r: Result<seq<OsString>, HelperError>)
    ensures r == BwrapWords(inv, around)
  {
    if inv.callerEnvPresent { return Err(BwrapCallerEnvUnsupported); }
    hide FirstRelative, RenderBwrapAll, AllowedEnv, Binds, ReadOnly, Writable, ChildWords;
    var head := ["--unshare-user", "--unshare-net", "--die-with-parent", "--clearenv"];
    var env := AppendAllowedEnv(inv.profile.envAllowlist, around.env);
    var binds := BindWords(inv.profile, around);
    if binds.Err? { return binds; }
    FlagWords();
    ghost var flags := [UnshareUser, UnshareNet, DieWithParent, ClearEnv];
    ghost var allowed := AllowedEnv(inv.profile.envAllowlist, around.env);
    ghost var bound := Binds(ReadOnly(inv.profile, around), false) + Binds(Writable(inv.profile), true);
    RenderBwrapAppend(flags, allowed);
    RenderBwrapAppend(flags + allowed, bound);
    RenderBwrapAppend(flags + allowed + bound, [Proc, Dev]);
    r := Ok(head + env + binds.value + ["--proc", "/proc", "--dev", "/dev"] + [around.helper] + ChildWords(inv));
  }

  /** The path at `i` is the first that is not absolute. */
  predicate FirstRelativeAt(paths: seq<OsString>, i: int, path: OsString) {
    0 <= i < |paths| && paths[i] == path && !IsAbsolute(path) && forall j | 0 <= j < i :: IsAbsolute(paths[j])
  }

  lemma {:induction false} FirstRelativeIsAt(paths: seq<OsString>) returns (i: nat)
    requires FirstRelative(paths).Some?
    ensures FirstRelativeAt(paths, i, FirstRelative(paths).value)
  {
    if IsAbsolute(paths[0]) {
      i := FirstRelativeIsAt(paths[1..]);
      i := i + 1;
    } else {
      i := 0;
    }
  }

  /** The command line is refused exactly for a caller's environment, or else for the first path that is relative. */
  lemma RefusalsAreExact(inv: Invocation, around: Surroundings)
    ensures var r, paths := BwrapWords(inv, around), inv.profile.fsWrite + inv.profile.fsRead;
            && (r == Err(BwrapCallerEnvUnsupported) <==> inv.callerEnvPresent)
            && (r.Ok? <==> !inv.callerEnvPresent && forall path | path in paths :: IsAbsolute(path))
            && (r.Err? && !inv.callerEnvPresent ==>
                  exists i, path :: r == Err(RelativeBwrapPath(path)) && FirstRelativeAt(paths, i, path))
  {
    var paths := inv.profile.fsWrite + inv.profile.fsRead;
    if FirstRelative(paths).Some? { var i := FirstRelativeIsAt(paths); }
    hide RenderBwrapAll, BwrapOptions, ChildWords;
  }

  predicate IsGiven(o: BwrapOption) {
    o.SetEnv? || o.RoBind? || o.Bind?
  }

  /** Whatever the profile, the network and the users are unshared, and the environment is cleared before any is set. */
  lemma AlwaysIsolated(profile: Profile, around: Surroundings)
    ensures exists given ::
              && BwrapOptions(profile, around) == [UnshareUser, UnshareNet, DieWithParent, ClearEnv] + given + [Proc, Dev]
              && forall o | o in given :: IsGiven(o)
  {
    var env := AllowedEnv(profile.envAllowlist, around.env);
    var reading, writing := Binds(ReadOnly(profile, around), false), Binds(Writable(profile), true);
    AllowedEnvSets(profile.envAllowlist, around.env);
    forall o | o in reading ensures o.RoBind? { BindsMember(ReadOnly(profile, around), false, o); }
    forall o | o in writing ensures o.Bind? { BindsMember(Writable(profile), true, o); }
    hide AllowedEnv, ReadOnly, Writable, Binds;
    ConcatAssociates([UnshareUser, UnshareNet, DieWithParent, ClearEnv], env, reading + writing);
    assert forall o | o in env + (reading + writing) :: IsGiven(o);
  }

  predicate SameKind(a: BwrapOption, b: BwrapOption) {
    (a.RoBind? && b.RoBind?) || (a.Bind? && b.Bind?)
  }

  /**
   The binds that bubblewrap gets: each writable path once, under the first spelling the profile gives it; each
   readable one that is no writable path likewise; both kinds in ascending order. So no path is bound twice.
   */
  lemma BindsAreExact(profile: Profile, around: Surroundings)
    ensures var options := BwrapOptions(profile, around);
            && (forall p :: Bind(p) in options <==> FirstSpelling(profile.fsWrite, p))
            && (forall p :: RoBind(p) in options <==>
                  FirstSpelling(ReadPaths(profile, around), p) && !Contains(profile.fsWrite, p))
            && InOrder(options)
  {
    var readable, read, write := PathSet(ReadPaths(profile, around)), ReadOnly(profile, around), Writable(profile);
    PathSetIsExact(profile.fsWrite);
    PathSetIsExact(ReadPaths(profile, around));
    FilterAscends(OtherThan(write), readable);
    forall p ensures p in read <==> p in readable && !Contains(write, p) {
      FilterMember(OtherThan(write), readable, p);
    }
    AllowedEnvSets(profile.envAllowlist, around.env);
    hide AllowedEnv, Binds, PathSet, Filter, FirstSpelling, Contains, ReadPaths, Ascending, PathLess;
    BoundInOrder([UnshareUser, UnshareNet, DieWithParent, ClearEnv] + AllowedEnv(profile.envAllowlist, around.env),
                 read, write, [Proc, Dev]);
  }

  predicate NoBind(options: seq<BwrapOption>) {
    forall o | o in options :: !o.RoBind? && !o.Bind?
  }

  lemma BindsMember(paths: seq<OsString>, writable: bool, o: BwrapOption)
    ensures o in Binds(paths, writable) <==>
            if writable then o.Bind? && o.path in paths else o.RoBind? && o.path in paths
  {
    var binds := Binds(paths, writable);
    if (if writable then o.Bind? else o.RoBind?) && o.path in paths {
      var i :| 0 <= i < |paths| && paths[i] == o.path;
      assert binds[i] == o;
    }
  }

  /** Binds of one kind follow each other in ascending order of their paths. */
  ghost predicate InOrder(options: seq<BwrapOption>) {
    forall i, j | 0 <= i < j < |options| && SameKind(options[i], options[j]) ::
      PathLess(options[i].path, options[j].path)
  }

  lemma InOrderConcat(a: seq<BwrapOption>, b: seq<BwrapOption>)
    requires InOrder(a) && InOrder(b) && forall x, y | x in a && y in b :: !SameKind(x, y)
    ensures InOrder(a + b)
  {
    hide PathLess;
    assert forall i | 0 <= i < |a| :: (a + b)[i] == a[i] && a[i] in a;
    assert forall j | 0 <= j < |b| :: (a + b)[|a| + j] == b[j] && b[j] in b;
    assert forall j | |a| <= j < |a + b| :: (a + b)[j] in b;
    forall i, j | 0 <= i < j < |a + b| && SameKind((a + b)[i], (a + b)[j])
      ensures PathLess((a + b)[i].path, (a + b)[j].path)
    {
    }
  }

  lemma BindsInOrder(paths: seq<OsString>, writable: bool)
    requires Ascending(paths)
    ensures InOrder(Binds(paths, writable))
  {
    hide PathLess;
  }

  lemma BoundInOrder(head: seq<BwrapOption>, read: seq<OsString>, write: seq<OsString>, tail: seq<BwrapOption>)
    requires NoBind(head) && NoBind(tail) && Ascending(read) && Ascending(write)
    ensures var options := head + (Binds(read, false) + Binds(write, true)) + tail;
            && InOrder(options)
            && (forall p :: Bind(p) in options <==> p in write)
            && (forall p :: RoBind(p) in options <==> p in read)
  {
    var ro, rw := Binds(read, false), Binds(write, true);
    BindsInOrder(read, false);
    BindsInOrder(write, true);
    forall o ensures o in ro <==> o.RoBind? && o.path in read { BindsMember(read, false, o); }
    forall o ensures o in rw <==> o.Bind? && o.path in write { BindsMember(write, true, o); }
    NoBindInOrder(head);
    NoBindInOrder(tail);
    hide InOrder, Binds, Ascending, PathLess;
    InOrderConcat(ro, rw);
    InOrderConcat(head, ro + rw);
    InOrderConcat(head + (ro + rw), tail);
  }

  lemma NoBindInOrder(options: seq<BwrapOption>)
    requires NoBind(options)
    ensures InOrder(options)
  {
    hide PathLess;
    assert forall i | 0 <= i < |options| :: options[i] in options;
  }

  lemma {:induction false} AllowedEnvSets(names: seq<string>, env: map<string, OsString>)
    ensures forall o :: o in AllowedEnv(names, env) <==>
              o.SetEnv? && o.name in names && o.name in BASE_ENV && o.name in env && o.value == env[o.name]
  {
    if names != [] {
      var front, last := names[..|names| - 1], names[|names| - 1];
      AllowedEnvSets(front, env);
      assert names == front + [last];
      hide BASE_ENV;
    }
  }

  /** The paths that are read: the platform's as far as they exist, the helper's own, and the profile's. */
  lemma ReadPathsAreExact(profile: Profile, around: Surroundings, path: OsString)
    ensures path in ReadPaths(profile, around) <==>
            || (path in around.existing &&
                path in ["/bin", "/sbin", "/usr", "/etc", "/lib", "/lib64", "/nix/store", "/run/current-system/sw"])
            || path == around.helper || path in profile.fsRead
  {
    FilterMember(Among(around.existing), PLATFORM_RO_PATHS, path);
    hide Filter;
  }

  /** The environment that bubblewrap sets: the base variables that the profile names, with the parent's values. */
  lemma EnvironmentIsExact(profile: Profile, around: Surroundings, name: string, value: OsString)
    ensures SetEnv(name, value) in BwrapOptions(profile, around) <==>
            && name in profile.envAllowlist && name in ["PATH", "HOME", "LANG", "TMPDIR"]
            && name in around.env && value == around.env[name]
  {
    AllowedEnvSets(profile.envAllowlist, around.env);
    BindsMember(ReadOnly(profile, around), false, SetEnv(name, value));
    BindsMember(Writable(profile), true, SetEnv(name, value));
    hide AllowedEnv, Binds, ReadOnly, Writable;
  }

  lemma {:induction false} FilterAscends(kept: OsString -> bool, paths: seq<OsString>)
    requires Ascending(paths)
    ensures Ascending(Filter(kept, paths))
  {
    if paths != [] {
      var front, last := paths[..|paths| - 1], paths[|paths| - 1];
      hide PathLess;
      FrontAscends(paths);
      FilterAscends(kept, front);
      forall p | p in Filter(kept, front) ensures PathLess(p, last) {
        FilterMember(kept, front, p);
      }
      AscendingSnoc(Filter(kept, front), last);
    }
  }

  lemma FlagWords()
    ensures RenderBwrapAll([UnshareUser, UnshareNet, DieWithParent, ClearEnv])
         == ["--unshare-user", "--unshare-net", "--die-with-parent", "--clearenv"]
    ensures RenderBwrapAll([Proc, Dev]) == ["--proc", "/proc", "--dev", "/dev"]
  {
    assert [UnshareUser, UnshareNet, DieWithParent, ClearEnv] == [UnshareUser] + [UnshareNet] + [DieWithParent] + [ClearEnv];
    RenderBwrapSnoc([], UnshareUser);
    RenderBwrapSnoc([UnshareUser], UnshareNet);
    RenderBwrapSnoc([UnshareUser] + [UnshareNet], DieWithParent);
    RenderBwrapSnoc([UnshareUser] + [UnshareNet] + [DieWithParent], ClearEnv);
    RenderBwrapSnoc([Proc], Dev);
    RenderBwrapSnoc([], Proc);
    assert [Proc, Dev] == [Proc] + [Dev];
    assert [] + [UnshareUser] == [UnshareUser] && [] + [Proc] == [Proc];
  }

  lemma {:induction false} FirstRelativeAppend(a: seq<OsString>, b: seq<OsString>)
    ensures FirstRelative(a + b) == if FirstRelative(a).Some? then FirstRelative(a) else FirstRelative(b)
  {
    if a == [] {
      assert a + b == b;
    } else {
      FirstRelativeAppend(a[1..], b);
      assert (a + b)[1..] == a[1..] + b;
    }
  }

  /** The part of the built command line after the helper's path reading back as the same invocation, as a child. */
  lemma ChildReadsBack(decode: Decoder, words: seq<OsString>, inv: Invocation)
    requires ParseFrom(decode, words, None, false, false) == Ok(inv)
    ensures ParseFrom(decode, ChildWords(inv), None, false, false)
         == Ok(inv.(bwrapChild := true, callerEnvPresent := false))
  {
    ParseIsExact(decode, words, inv);
    hide ParseFrom;
    var first :| Describes(decode, first, words, inv);
    var last := [ProfileText(inv.profileJson)];
    var options, child := [Child] + last, inv.(bwrapChild := true, callerEnvPresent := false);
    assert last[1..] == [] && options[1..] == last;
    assert LastProfile(last) == Some(inv.profileJson) && RenderAll(last) == [PROFILE_ARG, inv.profileJson];
    assert RenderAll(options) == [BWRAP_CHILD_ARG, PROFILE_ARG, inv.profileJson];
    assert ChildWords(inv) == RenderAll(options) + [ARG_SEPARATOR, inv.command] + inv.args;
    DescribedIsMeant(decode, options, ChildWords(inv), child);
  }

  /**
   A run that executes bubblewrap, and the run that bubblewrap then starts: its command line ends with words that
   the second run reads as the same profile, command and arguments, whatever the arguments are; that run does
   nothing but close descriptors and execute that command, and cannot enter the fallback again.
   */
  lemma FallbackRunsTheCommand(
      decode: Decoder, sys: System, inner: System, words: seq<OsString>, inv: Invocation, bwrapWords: seq<OsString>)
    requires ParseFrom(decode, words, None, false, false) == Ok(inv)
    requires ExecBwrap(bwrapWords) in RunResult(decode, sys, words).0
    ensures var around := sys.bwrap.value;
            bwrapWords == RenderBwrapAll(BwrapOptions(inv.profile, around)) + [around.helper] + ChildWords(inv)
    ensures RunResult(decode, inner, ChildWords(inv)) ==
            if inner.closeFds.Err? then ([CloseFds], Err(inner.closeFds.error))
            else ([CloseFds, Exec(inv.command, inv.args)], inner.exec)
  {
    RunsAreConfined(decode, sys, words);
    ChildReadsBack(decode, words, inv);
    hide ParseFrom, ChildWords, BwrapOptions, RenderBwrapAll, FallbackResult;
    assert [CloseFds] + [Exec(inv.command, inv.args)] == [CloseFds, Exec(inv.command, inv.args)];
  }
}
