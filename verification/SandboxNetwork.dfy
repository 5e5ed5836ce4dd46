/**
 Which network a sandboxed command gets (crates/ta-linux-sandbox/src/main.rs:219-236 and :302-337): what the
 entries of an allowlist denote, and what a run probes and applies, said of the profile alone.
 */
module SandboxNetwork {
  import opened Prelude
  import opened Numerals
  import opened Paths
  import opened Sandbox

  // What an entry denotes, said by writing ports down.

  function Prefixed(given: bool, prefix: string, text: string): string {
    if given then prefix + text else text
  }

  /**
   A number as an entry may write it: after `tcp:` or not, with or without a plus sign, and with any number of
   leading zeros.
   */
  function Written(n: nat, tcp: bool, plus: bool, zeros: nat): string {
    Prefixed(tcp, "tcp:", Prefixed(plus, "+", Zeros(zeros) + Decimal(n)))
  }

  ghost predicate Writes(entry: string, n: nat) {
    exists tcp: bool, plus: bool, zeros: nat :: entry == Written(n, tcp, plus, zeros)
  }

  ghost predicate Denotes(entry: string, port: nat) {
    1 <= port <= 65535 && Writes(entry, port)
  }

  /** What is left of an entry once `tcp:` and a plus sign are taken off. */
  function DigitsOf(entry: string): string {
    var text := if "tcp:" <= entry then entry[4..] else entry;
    if "+" <= text then text[1..] else text
  }

  /** A prefix is taken off exactly as often as it was put on, if the text does not start with its first letter. */
  lemma PrefixComesOff(given: bool, prefix: string, text: string)
    requires prefix != "" && text != "" && text[0] != prefix[0]
    ensures var whole := Prefixed(given, prefix, text);
            && (prefix <= whole <==> given)
            && (if given then whole[|prefix|..] else whole) == text
  {
    if given { assert (prefix + text)[..|prefix|] == prefix; }
  }

  lemma PrefixesComeOff(tcp: bool, plus: bool, digits: string)
    requires digits != "" && IsDigit(digits[0])
    ensures DigitsOf(Prefixed(tcp, "tcp:", Prefixed(plus, "+", digits))) == digits
  {
    var text := Prefixed(plus, "+", digits);
    assert text != "" && text[0] != 't';
    PrefixComesOff(plus, "+", digits);
    PrefixComesOff(tcp, "tcp:", text);
    hide Prefixed;
  }

  lemma WrittenIsRead(entry: string, n: nat)
    requires Writes(entry, n)
    ensures var digits := DigitsOf(entry); digits != "" && Digits(digits) && DecimalValue(digits) == n
  {
    hide DigitsOf, Prefixed, Decimal, Zeros, DecimalValue, IsDigit;
    var tcp: bool, plus: bool, zeros: nat :| entry == Written(n, tcp, plus, zeros);
    var digits := Zeros(zeros) + Decimal(n);
    ZerosInFront(zeros, Decimal(n));
    DecimalRoundTrip(n);
    assert digits != "" && digits[0] in digits;
    PrefixesComeOff(tcp, plus, digits);
  }

  lemma PrefixGoesBack(prefix: string, whole: string)
    ensures Prefixed(prefix <= whole, prefix, if prefix <= whole then whole[|prefix|..] else whole) == whole
  {
  }

  lemma ReadIsWritten(entry: string)
    requires DigitsOf(entry) != "" && Digits(DigitsOf(entry))
    ensures Writes(entry, DecimalValue(DigitsOf(entry)))
  {
    var digits := DigitsOf(entry);
    var zeros := DigitsAreWritten(digits);
    hide DecimalValue, Decimal, Zeros;
    var tcp := "tcp:" <= entry;
    var text := if tcp then entry[4..] else entry;
    PrefixGoesBack("tcp:", entry);
    PrefixGoesBack("+", text);
    hide Prefixed;
    assert entry == Written(DecimalValue(digits), tcp, "+" <= text, zeros);
  }

  /** An entry is read as a port exactly if it denotes it, and as zero exactly if it writes zero. */
  lemma PortsAreDenoted(entry: string, port: nat)
    ensures ParsePort(entry) == Ok(port) <==> Denotes(entry, port)
    ensures ParsePort(entry) == Err(UnsupportedProfile(PORT_ZERO)) <==> Writes(entry, 0)
    ensures ParsePort(entry).Err? ==>
              ParsePort(entry).error in [UnsupportedProfile(PORT_ZERO), UnsupportedProfile(NOT_A_PORT)]
  {
    MessagesDiffer();
    var digits := DigitsOf(entry);
    hide DecimalValue, Writes;
    if Writes(entry, port) { WrittenIsRead(entry, port); }
    if Writes(entry, 0) { WrittenIsRead(entry, 0); }
    if digits != "" && Digits(digits) { ReadIsWritten(entry); }
    ParsePortReads(entry);
  }

  lemma MessagesDiffer()
    ensures PORT_ZERO != NOT_A_PORT
  {
    assert PORT_ZERO[10] != NOT_A_PORT[10] || PORT_ZERO[20] != NOT_A_PORT[20] || |PORT_ZERO| != |NOT_A_PORT|;
  }

  lemma ParsePortReads(entry: string)
    ensures ParsePort(entry) ==
            var digits := DigitsOf(entry);
            if digits == "" || !Digits(digits) || DecimalValue(digits) > 65535 then Err(UnsupportedProfile(NOT_A_PORT))
            else if DecimalValue(digits) == 0 then Err(UnsupportedProfile(PORT_ZERO))
            else Ok(DecimalValue(digits))
  {
    hide DecimalValue;
  }

  ghost predicate DenotesAPort(entry: string) {
    exists port :: Denotes(entry, port)
  }

  lemma DenotingIsParsing(entry: string)
    ensures ParsePort(entry).Ok? <==> DenotesAPort(entry)
  {
    hide ParsePort, Denotes;
    if ParsePort(entry).Ok? { PortsAreDenoted(entry, ParsePort(entry).value); }
    if port :| Denotes(entry, port) { PortsAreDenoted(entry, port); }
  }

  /** An allowlist is read exactly if every entry denotes a port, as the set of those ports. */
  lemma {:induction false} AllowlistsAreDenoted(entries: seq<string>)
    ensures ParseAllowlist(entries).Ok? <==> forall entry | entry in entries :: DenotesAPort(entry)
    ensures ParseAllowlist(entries).Ok? ==>
              forall port ::
                port in ParseAllowlist(entries).value <==> exists entry :: entry in entries && Denotes(entry, port)
  {
    if entries != [] {
      hide ParsePort, Denotes, DenotesAPort;
      var first, rest := entries[0], entries[1..];
      AllowlistsAreDenoted(rest);
      DenotingIsParsing(first);
      assert entries == [first] + rest;
      if ParseAllowlist(entries).Ok? {
        forall port
          ensures port in ParseAllowlist(entries).value <==> exists entry :: entry in entries && Denotes(entry, port)
        {
          PortsAreDenoted(first, port);
          if Denotes(first, port) { assert first in entries; }
        }
      }
    }
  }

  // The network of a profile, and what a run does about it.

  /** The network that a policy asks for. */
  ghost predicate AsksFor(policy: NetworkPolicy, network: LandlockNetwork) {
    match policy
    case Off => network == DenyTcp
    case Open => network == OpenNetwork
    case Loopback => false
    case Allowlist(entries) =>
      && (forall entry | entry in entries :: DenotesAPort(entry))
      && network.AllowTcpConnect?
      && forall port :: port in network.ports <==> exists entry :: entry in entries && Denotes(entry, port)
  }

  /** Loopback, and an allowlist with an entry that denotes no port, cannot be had. */
  ghost predicate Refused(policy: NetworkPolicy) {
    policy.Loopback? || (policy.Allowlist? && exists entry :: entry in policy.entries && !DenotesAPort(entry))
  }

  lemma NetworkIsAskedFor(profile: Profile)
    ensures NetworkOf(profile).Ok? <==> !Refused(profile.network)
    ensures NetworkOf(profile).Ok? ==> AsksFor(profile.network, NetworkOf(profile).value)
  {
    hide ParseAllowlist, DenotesAPort, Denotes;
    if profile.network.Allowlist? { AllowlistsAreDenoted(profile.network.entries); }
  }

  /** Only one network is what a policy asks for. */
  lemma AskedForIsOne(policy: NetworkPolicy, a: LandlockNetwork, b: LandlockNetwork)
    requires AsksFor(policy, a) && AsksFor(policy, b)
    ensures a == b
  {
    hide DenotesAPort, Denotes;
    if policy.Allowlist? {
      assert forall port :: port in a.ports <==> port in b.ports;
      assert a.ports == b.ports;
    }
  }

  /** Every network probed for or applied is the one that the profile asks for, and it is the profile that is applied. */
  ghost predicate UsesItsNetwork(inv: Invocation, effects: seq<Effect>) {
    && (forall e | e in effects && e.Probe? :: AsksFor(inv.profile.network, e.network))
    && (forall e | e in effects && e.Apply? :: e.profile == inv.profile && AsksFor(inv.profile.network, e.network))
    && (Refused(inv.profile.network) ==> forall e | e in effects :: e == CloseFds)
  }

  lemma NetworksInEffects(sys: System, inv: Invocation)
    requires IsAbsolute(inv.command)
    ensures var effects := RunInvocation(sys, inv).0;
            && (forall e | e in effects && e.Probe? :: NetworkOf(inv.profile) == Ok(e.network))
            && (forall e | e in effects && e.Apply? :: e.profile == inv.profile && NetworkOf(inv.profile) == Ok(e.network))
            && (NetworkOf(inv.profile).Err? ==> forall e | e in effects :: e == CloseFds)
  {
    assert inv.profile.network.Off? ==> NetworkOf(inv.profile).Ok?;
    FallbackEffects(sys, inv);
    DecideEffects(sys, inv.profile);
    hide NetworkOf, BwrapWords, FallbackResult, Decide;
  }

  lemma FallbackEffects(sys: System, inv: Invocation)
    ensures forall e | e in FallbackResult(sys, inv).0 :: e.Fallback? || e.ExecBwrap?
  {
    hide BwrapWords;
  }

  lemma DecideEffects(sys: System, profile: Profile)
    ensures var (effects, strategy) := Decide(profile, sys);
            && (forall e | e in effects :: e.Probe? && NetworkOf(profile) == Ok(e.network))
            && (strategy.Ok? && strategy.value.Landlock? ==> NetworkOf(profile) == Ok(strategy.value.network))
            && (NetworkOf(profile).Err? ==> effects == [] && strategy.Err?)
  {
    hide NetworkOf;
  }

  /**
   Whatever the system answers, a run probes for and applies the network that its profile asks for and no other:
   none with network off, any with it open, and connections to exactly the ports that its allowlist denotes. A
   profile whose network cannot be had is refused before anything is probed or executed.
   */
  lemma RunsUseTheirNetwork(decode: Decoder, sys: System, words: seq<OsString>, inv: Invocation)
    requires ParseFrom(decode, words, None, false, false) == Ok(inv)
    ensures UsesItsNetwork(inv, RunResult(decode, sys, words).0)
    ensures Refused(inv.profile.network) ==> RunResult(decode, sys, words).1.Err?
  {
    hide ParseFrom, NetworkOf, AsksFor, Refused;
    NetworkIsAskedFor(inv.profile);
    RunsAreConfined(decode, sys, words);
    if IsAbsolute(inv.command) { NetworksInEffects(sys, inv); }
    hide RunInvocation, BwrapWords;
  }
}
