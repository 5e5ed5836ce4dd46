/**
 The command line that the helper builds for bubblewrap (crates/ta-linux-sandbox/src/main.rs:448-544), read back
 word by word as bubblewrap reads it: each option with its own number of words, up to the program to run.
 */
module BwrapReads {
  import opened Prelude
  import opened Paths
  import opened Sandbox

  /** The option that some words start with, by its own name; a path bound onto itself is given twice. */
  function ReadOne(words: seq<OsString>): Option<(BwrapOption, seq<OsString>)> {
    if words == [] then None
    else if words[0] == "--unshare-user" then Some((UnshareUser, words[1..]))
    else if words[0] == "--unshare-net" then Some((UnshareNet, words[1..]))
    else if words[0] == "--die-with-parent" then Some((DieWithParent, words[1..]))
    else if words[0] == "--clearenv" then Some((ClearEnv, words[1..]))
    else if words[0] == "--setenv" && |words| >= 3 then Some((SetEnv(words[1], words[2]), words[3..]))
    else if words[0] == "--ro-bind" && |words| >= 3 && words[1] == words[2] then Some((RoBind(words[1]), words[3..]))
    else if words[0] == "--bind" && |words| >= 3 && words[1] == words[2] then Some((Bind(words[1]), words[3..]))
    else if words[0] == "--proc" && |words| >= 2 && words[1] == "/proc" then Some((Proc, words[2..]))
    else if words[0] == "--dev" && |words| >= 2 && words[1] == "/dev" then Some((Dev, words[2..]))
    else None
  }

  /** All options at the start of some words, and what is left from the first word that is none. */
  function Read(words: seq<OsString>): (seq<BwrapOption>, seq<OsString>)
    decreases |words|
  {
    match ReadOne(words)
    case None => ([], words)
    case Some((first, rest)) => var (others, left) := Read(rest); ([first] + others, left)
  }

  lemma OptionNamesDiffer()
    ensures "--unshare-user" != "--unshare-net" && "--die-with-parent" !in ["--unshare-user", "--unshare-net"]
    ensures "--clearenv" !in ["--unshare-user", "--unshare-net", "--die-with-parent"]
    ensures "--setenv" !in ["--unshare-user", "--unshare-net", "--die-with-parent", "--clearenv"]
    ensures "--ro-bind" !in ["--unshare-user", "--unshare-net", "--die-with-parent", "--clearenv", "--setenv"]
    ensures "--bind" !in ["--unshare-user", "--unshare-net", "--die-with-parent", "--clearenv", "--setenv", "--ro-bind"]
    ensures "--proc" !in ["--unshare-user", "--unshare-net", "--die-with-parent", "--clearenv", "--setenv", "--ro-bind"]
    ensures "--proc" != "--bind"
    ensures "--dev" !in ["--unshare-user", "--unshare-net", "--die-with-parent", "--clearenv", "--setenv", "--ro-bind"]
    ensures "--dev" != "--bind" && "--dev" != "--proc"
  {
    assert |"--unshare-user"| == 14 && |"--unshare-net"| == 13 && |"--die-with-parent"| == 17 && |"--clearenv"| == 10;
    assert |"--setenv"| == 8 && |"--ro-bind"| == 9 && |"--bind"| == 6 && |"--proc"| == 6 && |"--dev"| == 5;
    assert "--bind"[2] == 'b' && "--proc"[2] == 'p';
  }

  /** One option is read back from its words, whatever follows. */
  lemma OneReadsBack(o: BwrapOption, rest: seq<OsString>)
    ensures ReadOne(RenderBwrap(o) + rest) == Some((o, rest))
  {
    OptionNamesDiffer();
    var words := RenderBwrap(o) + rest;
    assert words[0] == RenderBwrap(o)[0] && words[|RenderBwrap(o)|..] == rest;
  }

  lemma RenderFront(o: BwrapOption, options: seq<BwrapOption>)
    ensures RenderBwrapAll([o] + options) == RenderBwrap(o) + RenderBwrapAll(options)
  {
    RenderBwrapAppend([o], options);
    assert [] + [o] == [o];
    RenderBwrapSnoc([], o);
    assert RenderBwrapAll([]) + RenderBwrap(o) == RenderBwrap(o);
  }

  lemma {:induction false} AllReadBack(options: seq<BwrapOption>, rest: seq<OsString>)
    requires ReadOne(rest).None?
    ensures Read(RenderBwrapAll(options) + rest) == (options, rest)
    decreases |options|
  {
    hide RenderBwrap, ReadOne;
    if options == [] {
      assert RenderBwrapAll(options) + rest == rest;
    } else {
      var first, others := options[0], options[1..];
      assert options == [first] + others;
      RenderFront(first, others);
      AllReadBack(others, rest);
      var more := RenderBwrapAll(others) + rest;
      ConcatAssociates(RenderBwrap(first), RenderBwrapAll(others), rest);
      hide RenderBwrapAll;
      OneReadsBack(first, more);
    }
  }

  /** The name of an option starts with two dashes, so no program given by its path is mistaken for one. */
  lemma PathsAreNoOptions(path: OsString, rest: seq<OsString>)
    requires IsAbsolute(path)
    ensures ReadOne([path] + rest).None?
  {
    assert ([path] + rest)[0] == path && path[0] == '/';
  }

  /**
   Bubblewrap reads the words built for it as exactly the options meant, whatever paths, values and arguments they
   carry, and then as the helper with its own command line.
   */
  lemma BwrapReadsItsOptions(inv: Invocation, around: Surroundings)
    requires IsAbsolute(around.helper) && BwrapWords(inv, around).Ok?
    ensures Read(BwrapWords(inv, around).value) == (BwrapOptions(inv.profile, around), [around.helper] + ChildWords(inv))
  {
    var options, child := BwrapOptions(inv.profile, around), ChildWords(inv);
    PathsAreNoOptions(around.helper, child);
    hide BwrapOptions, ChildWords, RenderBwrapAll, ReadOne, Read, FirstRelative;
    ConcatAssociates(RenderBwrapAll(options), [around.helper], child);
    AllReadBack(options, [around.helper] + child);
  }
}
