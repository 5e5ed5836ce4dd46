/** Duplicate mapping keys found line by line with a stack of indentations (crates/ta-workflow/src/yaml_keys.rs). */
module YamlKeys {
  import opened Prelude

  // Reading a key off a line.

  function Find(s: string, c: char): (at: Option<nat>)
    ensures at.None? <==> c !in s
    ensures at.Some? ==> at.value < |s| && s[at.value] == c && c !in s[..at.value]
  {
    if s == [] then None
    else if s[0] == c then Some(0)
    else
      match Find(s[1..], c)
      case None => None
      case Some(n) => assert s[..n + 1] == [s[0]] + s[1..][..n]; Some(n + 1)
  }

  function BeforeFirst(s: string, c: char): string {
    match Find(s, c) case None => s case Some(n) => s[..n]
  }

  function StripCr(s: string): string {
    if s != [] && s[|s| - 1] == '\r' then s[..|s| - 1] else s
  }

  /** `str::lines`: a line ends at `\n` or `\r\n`; what follows the last one is a line unless it is empty. */
  function Lines(s: string): seq<string>
    decreases |s|
  {
    if s == [] then []
    else
      match Find(s, '\n')
      case None => [s]
      case Some(n) => [StripCr(s[..n])] + Lines(s[n + 1..])
  }

  function Unlines(lines: seq<string>): string {
    if lines == [] then "" else lines[0] + "\n" + Unlines(lines[1..])
  }

  lemma {:induction false} FindAt(s: string, c: char, n: nat)
    requires n < |s| && s[n] == c && c !in s[..n]
    ensures Find(s, c) == Some(n)
  {
    if n > 0 {
      assert s[..n][0] == s[0];
      assert s[1..][..n - 1] == s[..n][1..];
      FindAt(s[1..], c, n - 1);
    }
  }

  /** Lines that hold no line ending come back as they were written, whatever else they hold. */
  lemma {:induction false} LinesOfUnlines(lines: seq<string>)
    requires forall l | l in lines :: '\n' !in l && (l == [] || l[|l| - 1] != '\r')
    ensures Lines(Unlines(lines)) == lines
  {
    if lines != [] {
      var first, s := lines[0], Unlines(lines);
      assert first in lines && s[..|first|] == first && s[|first|] == '\n';
      FindAt(s, '\n', |first|);
      assert s[|first| + 1..] == Unlines(lines[1..]);
      LinesOfUnlines(lines[1..]);
    }
  }

  function Utf8Length(s: string): nat {
    if s == [] then 0
    else
      Utf8Length(s[1..]) +
      if s[0] < '\U{80}' then 1 else if s[0] < '\U{800}' then 2 else if s[0] < '\U{10000}' then 3 else 4
  }

  function TrimMatches(s: string, c: char): string
    decreases |s|
  {
    if s != [] && s[0] == c then TrimMatches(s[1..], c)
    else if s != [] && s[|s| - 1] == c then TrimMatches(s[..|s| - 1], c)
    else s
  }

  const BANNED: string := " []{}"

  predicate IsKey(key: string) {
    key != [] && forall c | c in BANNED :: c !in key
  }

  function KeyAtLine(line: string): Option<(nat, string)> {
    KeyOfCode(TrimEnd(BeforeFirst(line, '#')))
  }

  /** The key of a line whose comment and trailing blanks have been cut off. */
  function KeyOfCode(code: string): Option<(nat, string)> {
    if IsBlank(code) then None
    else
      var trimmed := TrimStart(code);
      var indent := Utf8Length(code[..|code| - |trimmed|]);
      if trimmed != [] && trimmed[0] == '-' then None
      else
        match Find(trimmed, ':')
        case None => None
        case Some(colon) =>
          var key := Trim(trimmed[..colon]);
          if IsKey(key) then Some((indent, TrimMatches(TrimMatches(key, '\"'), '\''))) else None
  }

  /** A line that holds a key: its position, its indentation in bytes, and the key. */
  datatype KeyLine = KeyLine(index: nat, indent: nat, key: string)

  /** The key lines among the first `n` lines, in order. */
  function KeyLines(lines: seq<string>): seq<KeyLine> {
    if lines == [] then []
    else
      var n := |lines| - 1;
      KeyLines(lines[..n]) +
      match KeyAtLine(lines[n]) { case None => [] case Some((indent, key)) => [KeyLine(n, indent, key)] }
  }

  // Which lines enclose a line: the nearest earlier one indented less, and those that enclose that one.

  /** The last of the first `n` key lines that is indented less than `indent`. */
  function Nearest(ks: seq<KeyLine>, n: nat, indent: nat): (j: Option<nat>)
    requires n <= |ks|
    ensures j.None? ==> forall k | 0 <= k < n :: ks[k].indent >= indent
    ensures j.Some? ==>
              && j.value < n && ks[j.value].indent < indent
              && forall k | j.value < k < n :: ks[k].indent >= indent
  {
    if n == 0 then None else if ks[n - 1].indent < indent then Some(n - 1) else Nearest(ks, n - 1, indent)
  }

  function Parent(ks: seq<KeyLine>, i: nat): (j: Option<nat>)
    requires i < |ks|
    ensures j.Some? ==> j.value < i
  {
    Nearest(ks, i, ks[i].indent)
  }

  /** The key lines that enclose line `i`, outermost first. */
  function Enclosing(ks: seq<KeyLine>, i: nat): seq<KeyLine>
    requires i < |ks|
    decreases i
  {
    match Parent(ks, i)
    case None => []
    case Some(j) => Enclosing(ks, j) + [ks[j]]
  }

  /** Each enclosing line is indented more than the one that encloses it, and less than the line itself. */
  lemma {:induction false} EnclosingIndentsIncrease(ks: seq<KeyLine>, i: nat)
    requires i < |ks|
    ensures forall a, b | 0 <= a < b < |Enclosing(ks, i)| :: Enclosing(ks, i)[a].indent < Enclosing(ks, i)[b].indent
    ensures forall a | 0 <= a < |Enclosing(ks, i)| :: Enclosing(ks, i)[a].indent < ks[i].indent
    decreases i
  {
    if Parent(ks, i).Some? { EnclosingIndentsIncrease(ks, Parent(ks, i).value); }
  }

  // The source's stack.

  function Pop(stack: seq<KeyLine>, indent: nat): seq<KeyLine> {
    if stack != [] && stack[|stack| - 1].indent >= indent then Pop(stack[..|stack| - 1], indent) else stack
  }

  /**
   Popping from the lines that enclose line `m`, and `m` itself, gives the lines that enclose line `i`, if
   everything between the two is indented at least as much as `i`.
   */
  lemma {:induction false} PoppedIsEnclosing(ks: seq<KeyLine>, m: nat, i: nat)
    requires m < i < |ks| && forall k | m < k < i :: ks[k].indent >= ks[i].indent
    ensures Pop(Enclosing(ks, m) + [ks[m]], ks[i].indent) == Enclosing(ks, i)
    decreases m
  {
    var stack := Enclosing(ks, m) + [ks[m]];
    if ks[m].indent >= ks[i].indent {
      assert stack[..|stack| - 1] == Enclosing(ks, m);
      if Parent(ks, m).Some? {
        PoppedIsEnclosing(ks, Parent(ks, m).value, i);
      }
    }
  }

  // What counts as a key.

  /** `s` without the `c`s around it: something in between that has none at either end. */
  lemma {:induction false} TrimmedOf(s: string, c: char) returns (front: nat, back: nat)
    ensures var r := TrimMatches(s, c);
            && front + |r| + back == |s| && s[front..front + |r|] == r
            && (forall i | 0 <= i < front || front + |r| <= i < |s| :: s[i] == c)
            && (r != [] ==> r[0] != c && r[|r| - 1] != c)
    decreases |s|
  {
    if s != [] && s[0] == c {
      front, back := TrimmedOf(s[1..], c);
      front := front + 1;
    } else if s != [] && s[|s| - 1] == c {
      front, back := TrimmedOf(s[..|s| - 1], c);
      back := back + 1;
    } else {
      front, back := 0, 0;
    }
  }

  /** The first colon is at `n`, and a key with this indentation starts at `m`. */
  predicate KeyAt(text: string, m: int, n: int, indent: nat, key: string) {
    && 0 <= m < n < |text| && text[n] == ':' && ':' !in text[..n]
    && IsBlank(text[..m]) && !IsWhitespace(text[m]) && text[m] != '-'
    && indent == Utf8Length(text[..m]) && HasKey(TrimEnd(text[m..n]), key)
  }

  predicate NoComment(line: string, n: int) {
    0 <= n <= |line| && '#' !in line[..n]
  }

  lemma TrimStartDrops(s: string, m: nat)
    requires m < |s| && IsBlank(s[..m]) && !IsWhitespace(s[m])
    ensures TrimStart(s) == s[m..]
  {
    var r := TrimStart(s);
    hide IsWhitespace, TrimStart;
    var p := |s| - |r|;
    assert forall i | 0 <= i < m :: s[..m][i] == s[i];
    assert p >= m;
    assert p <= m;
  }

  /** The parts that a key is read from. */
  lemma KeyOfCodeParts(code: string, indent: nat, key: string) returns (trimmed: string, raw: string)
    requires KeyOfCode(code) == Some((indent, key))
    ensures trimmed == TrimStart(code) && raw < trimmed && trimmed[|raw|] == ':' && ':' !in raw && trimmed[0] != '-'
    ensures indent == Utf8Length(code[..|code| - |trimmed|])
    ensures IsKey(Trim(raw)) && key == TrimMatches(TrimMatches(Trim(raw), '\"'), '\'')
  {
    hide TrimStart, Trim, Utf8Length, TrimMatches, IsKey, IsWhitespace;
    trimmed := TrimStart(code);
    raw := trimmed[..Find(trimmed, ':').value];
    hide Find;
  }

  lemma CodeHasItsKeyAt(code: string, indent: nat, key: string) returns (m: nat, n: nat)
    requires KeyOfCode(code) == Some((indent, key))
    ensures KeyAt(code, m, n, indent, key)
  {
    hide KeyOfCode, TrimMatches, Utf8Length, BANNED, TrimStart, TrimEnd, Trim, IsKey, IsWhitespace, HasKey;
    var trimmed, raw := KeyOfCodeParts(code, indent, key);
    m := |code| - |trimmed|;
    n := m + |raw|;
    BannedAre(Trim(raw));
    KeyIsNotBlank(raw);
    PartsLieIn(code, trimmed, raw, m, n);
    TrimIsTrimEnd(raw);
    BlankBefore(code, m);
    NoColonBefore(code, m, n);
    KeyIsHeld(Trim(raw), key);
  }

  lemma PartsLieIn(code: string, trimmed: string, raw: string, m: nat, n: nat)
    requires trimmed == TrimStart(code) && raw < trimmed && raw != ""
    requires m == |code| - |trimmed| && n == m + |raw|
    ensures n < |code| && code[m..n] == raw && code[n] == trimmed[|raw|] && code[m] == trimmed[0] == raw[0]
    ensures !IsWhitespace(raw[0])
  {
    hide IsWhitespace;
  }

  lemma KeyIsHeld(text: string, key: string)
    requires IsKey(text) && key == TrimMatches(TrimMatches(text, '\"'), '\'')
    ensures HasKey(text, key)
  {
    BannedAre(text);
    hide TrimMatches, IsKey, BANNED;
  }

  lemma BlankBefore(code: string, m: nat)
    requires m <= |code| && |TrimStart(code)| == |code| - m
    ensures IsBlank(code[..m])
  {
    hide IsWhitespace;
  }

  lemma KeyIsNotBlank(raw: string)
    requires Trim(raw) != ""
    ensures raw != ""
  {
  }

  lemma TrimIsTrimEnd(raw: string)
    requires raw != "" && !IsWhitespace(raw[0])
    ensures Trim(raw) == TrimEnd(raw)
  {
    hide IsWhitespace, TrimEnd;
  }

  lemma NoColonBefore(code: string, m: nat, n: nat)
    requires m <= n <= |code| && IsBlank(code[..m]) && ':' !in code[m..n]
    ensures ':' !in code[..n]
  {
    assert !IsWhitespace(':');
    hide IsWhitespace;
    forall i | 0 <= i < n ensures code[..n][i] != ':' {
      if i < m { assert code[..m][i] == code[i]; } else { assert code[m..n][i - m] == code[i]; }
    }
  }

  lemma KeyAtIsRead(code: string, m: nat, n: nat, indent: nat, key: string)
    requires KeyAt(code, m, n, indent, key)
    ensures KeyOfCode(code) == Some((indent, key))
  {
    TrimStartDrops(code, m);
    var trimmed, raw := code[m..], code[m..n];
    assert trimmed[..n - m] == raw && trimmed[n - m] == ':';
    assert ':' !in raw by {
      forall i | 0 <= i < n - m ensures raw[i] != ':' { assert code[..n][m + i] == raw[i]; }
    }
    FindAt(trimmed, ':', n - m);
    assert raw[0] == code[m];
    hide TrimMatches, Utf8Length, BANNED, Find;
    TrimIsTrimEnd(raw);
    BannedAre(TrimEnd(raw));
    hide IsWhitespace, TrimStart, TrimEnd, Trim, IsKey;
    assert !IsBlank(code);
  }

  /** What comes before the comment and is not blank at the end holds every colon before the comment. */
  lemma CodeOfLine(line: string)
    ensures var code := TrimEnd(BeforeFirst(line, '#'));
            && code <= line && '#' !in code
            && forall n | 0 <= n < |line| && line[n] == ':' && '#' !in line[..n] :: n < |code|
  {
    assert !IsWhitespace(':');
    var shown := BeforeFirst(line, '#');
    hide IsWhitespace, TrimEnd;
    forall n | 0 <= n < |line| && line[n] == ':' && '#' !in line[..n] ensures n < |TrimEnd(shown)| {
      CommentComesLater(line, n);
    }
  }

  lemma CommentComesLater(line: string, n: nat)
    requires n < |line| && line[n] == ':' && '#' !in line[..n]
    ensures n < |BeforeFirst(line, '#')| && BeforeFirst(line, '#')[n] == ':'
  {
    assert forall h | 0 <= h < n :: line[..n][h] == line[h];
  }

  lemma KeyAtInPrefix(code: string, line: string, m: int, n: int, indent: nat, key: string)
    requires code <= line && n < |code|
    ensures KeyAt(code, m, n, indent, key) <==> KeyAt(line, m, n, indent, key)
  {
    hide IsWhitespace, Utf8Length, HasKey, TrimEnd;
    if 0 <= m < n { assert code[..n] == line[..n] && code[..m] == line[..m] && code[m..n] == line[m..n]; }
  }

  /**
   A line has a key exactly if a colon comes before any comment sign, and what precedes it, apart from blanks, is
   not empty, does not start as a list item, and holds no space and no bracket; the indentation is what comes before
   that, in bytes, and the key is that without the quotes around it.
   */
  lemma KeysEndAtTheColon(line: string, indent: nat, key: string)
    ensures KeyAtLine(line) == Some((indent, key)) <==>
            exists m, n :: KeyAt(line, m, n, indent, key) && NoComment(line, n)
  {
    var code := TrimEnd(BeforeFirst(line, '#'));
    CodeOfLine(line);
    hide KeyAt, KeyOfCode, TrimEnd, BeforeFirst;
    if KeyAtLine(line) == Some((indent, key)) {
      var m, n := CodeHasItsKeyAt(code, indent, key);
      KeyAtBounds(code, m, n, indent, key);
      KeyAtInPrefix(code, line, m, n, indent, key);
      assert forall c | c in line[..n] :: c in code by { assert line[..n] == code[..n]; }
    }
    if m, n :| KeyAt(line, m, n, indent, key) && NoComment(line, n) {
      KeyAtBounds(line, m, n, indent, key);
      KeyAtInPrefix(code, line, m, n, indent, key);
      KeyAtIsRead(code, m, n, indent, key);
    }
  }

  lemma KeyAtBounds(text: string, m: int, n: int, indent: nat, key: string)
    requires KeyAt(text, m, n, indent, key)
    ensures 0 <= m < n < |text| && text[n] == ':'
  {
  }

  /** The text may be a key, and this is the key without its quotes. */
  predicate HasKey(text: string, key: string) {
    && text != "" && ' ' !in text && '[' !in text && ']' !in text && '{' !in text && '}' !in text
    && key == TrimMatches(TrimMatches(text, '\"'), '\'')
  }

  lemma BannedAre(text: string)
    ensures IsKey(text) <==> text != "" && ' ' !in text && '[' !in text && ']' !in text && '{' !in text && '}' !in text
  {
    assert BANNED == [' ', '[', ']', '{', '}'];
  }

  // Paths and errors.

  function JoinKeys(stack: seq<KeyLine>): string {
    if stack == [] then ""
    else if |stack| == 1 then stack[0].key
    else JoinKeys(stack[..|stack| - 1]) + "." + stack[|stack| - 1].key
  }

  function PathOf(stack: seq<KeyLine>): string {
    if stack == [] then "$" else "$." + JoinKeys(stack)
  }

  datatype ValidationError = ValidationError(path: string, message: string)

  function ErrorAt(parentPath: string, k: KeyLine): ValidationError {
    ValidationError(parentPath + "." + k.key, "duplicate key on line " + Decimal(k.index + 1))
  }

  function ParentPath(ks: seq<KeyLine>, i: nat): string
    requires i < |ks|
  {
    PathOf(Enclosing(ks, i))
  }

  /** An earlier line has the same key under the same joined path. */
  predicate Repeats(ks: seq<KeyLine>, i: nat)
    requires i < |ks|
  {
    exists j :: 0 <= j < i && ks[j].key == ks[i].key && ParentPath(ks, j) == ParentPath(ks, i)
  }

  /** One error for each of the first `n` key lines that repeats an earlier one, in order. */
  function ExpectedErrors(ks: seq<KeyLine>, n: nat): seq<ValidationError>
    requires n <= |ks|
  {
    if n == 0 then []
    else
      ExpectedErrors(ks, n - 1) + if Repeats(ks, n - 1) then [ErrorAt(ParentPath(ks, n - 1), ks[n - 1])] else []
  }

  predicate Has(seen: map<string, set<string>>, path: string, key: string) {
    path in seen && key in seen[path]
  }

  /** `seen` holds exactly the keys of the first `n` key lines, each under its parent's path. */
  ghost predicate Seen(ks: seq<KeyLine>, n: nat, seen: map<string, set<string>>)
    requires n <= |ks|
  {
    forall path, key :: Has(seen, path, key) <==> OccursBefore(ks, n, path, key)
  }

  predicate OccursBefore(ks: seq<KeyLine>, n: nat, path: string, key: string)
    requires n <= |ks|
  {
    exists j :: 0 <= j < n && ks[j].key == key && ParentPath(ks, j) == path
  }

  function Insert(seen: map<string, set<string>>, path: string, key: string): map<string, set<string>> {
    seen[path := (if path in seen then seen[path] else {}) + {key}]
  }

  lemma OccursSnoc(ks: seq<KeyLine>, n: nat, path: string, key: string)
    requires n < |ks|
    ensures OccursBefore(ks, n + 1, path, key) <==>
            OccursBefore(ks, n, path, key) || (path == ParentPath(ks, n) && key == ks[n].key)
  {
    hide ParentPath;
    if OccursBefore(ks, n, path, key) {
      var j :| 0 <= j < n && ks[j].key == key && ParentPath(ks, j) == path;
      assert 0 <= j < n + 1;
    }
  }

  lemma SeenSnoc(ks: seq<KeyLine>, n: nat, seen: map<string, set<string>>)
    requires n < |ks| && Seen(ks, n, seen)
    ensures Seen(ks, n + 1, Insert(seen, ParentPath(ks, n), ks[n].key))
    ensures Repeats(ks, n) <==> Has(seen, ParentPath(ks, n), ks[n].key)
  {
    hide ParentPath;
    var parent, k := ParentPath(ks, n), ks[n].key;
    assert OccursBefore(ks, n, parent, k) <==> Repeats(ks, n);
    var after := Insert(seen, parent, k);
    forall path, key ensures Has(after, path, key) <==> OccursBefore(ks, n + 1, path, key) {
      OccursSnoc(ks, n, path, key);
      assert Has(seen, path, key) <==> OccursBefore(ks, n, path, key);
    }
  }

  lemma {:induction false} KeyLinesPrefix(lines: seq<string>, l: nat)
    requires l <= |lines|
    ensures KeyLines(lines[..l]) <= KeyLines(lines)
  {
    if l < |lines| {
      var n := |lines| - 1;
      KeyLinesPrefix(lines[..n], l);
      assert lines[..n][..l] == lines[..l];
    } else {
      assert lines[..l] == lines;
    }
  }

  /** The stack before the next key line is popped for it: the last key line and those that enclose it. */
  function StackAfter(ks: seq<KeyLine>, n: nat): seq<KeyLine>
    requires n <= |ks|
  {
    if n == 0 then [] else Enclosing(ks, n - 1) + [ks[n - 1]]
  }

  lemma {:induction false} PoppedStack(ks: seq<KeyLine>, n: nat)
    requires n < |ks|
    ensures Pop(StackAfter(ks, n), ks[n].indent) == Enclosing(ks, n)
  {
    hide Enclosing, Pop, Parent;
    if n == 0 { OutermostFirst(ks); } else { PoppedIsEnclosing(ks, n - 1, n); }
  }

  lemma OutermostFirst(ks: seq<KeyLine>)
    requires ks != []
    ensures Enclosing(ks, 0) == [] && Pop([], ks[0].indent) == []
  {
  }

  lemma KeyLinesSnoc(lines: seq<string>, l: nat, n: nat)
    requires l < |lines| && n <= |KeyLines(lines)| && KeyLines(lines[..l]) == KeyLines(lines)[..n]
    ensures match KeyAtLine(lines[l])
            case None => KeyLines(lines[..l + 1]) == KeyLines(lines)[..n]
            case Some((indent, key)) =>
              && n < |KeyLines(lines)| && KeyLines(lines)[n] == KeyLine(l, indent, key)
              && KeyLines(lines[..l + 1]) == KeyLines(lines)[..n + 1]
  {
    hide KeyAtLine;
    assert lines[..l + 1][..l] == lines[..l];
    KeyLinesPrefix(lines, l + 1);
  }

  method PopTo(stack: seq<KeyLine>, indent: nat) returns (popped: seq<KeyLine>)
    ensures popped == Pop(stack, indent)
  {
    popped := stack;
    while popped != [] && popped[|popped| - 1].indent >= indent
      invariant Pop(popped, indent) == Pop(stack, indent)
      decreases |popped|
    {
      popped := popped[..|popped| - 1];
    }
  }

  /**
   Exactly one error per key line whose key occurred on an earlier line under the same joined path of
   enclosing keys, in line order.
   */
  method DuplicateKeyErrors(contents: string) returns (errors: seq<ValidationError>)
    ensures var ks := KeyLines(Lines(contents)); errors == ExpectedErrors(ks, |ks|)
  {
    hide KeyAtLine, KeyLines, Enclosing, Pop, Lines, PathOf, Repeats, Seen, ErrorAt;
    var lines := Lines(contents);
    ghost var ks, n := KeyLines(lines), 0;
    var stack: seq<KeyLine>, seen: map<string, set<string>> := [], map[];
    errors := [];
    assert lines[..0] == [];
    NoKeyLines();
    NothingSeen(ks);
    for l := 0 to |lines|
      invariant n <= |ks| && KeyLines(lines[..l]) == ks[..n]
      invariant stack == StackAfter(ks, n) && Seen(ks, n, seen)
      invariant errors == ExpectedErrors(ks, n)
    {
      KeyLinesSnoc(lines, l, n);
      match KeyAtLine(lines[l]) {
        case None =>
        case Some((indent, key)) =>
          PoppedStack(ks, n);
          SeenSnoc(ks, n, seen);
          stack := PopTo(stack, indent);
          var parentPath := PathOf(stack);
          if Has(seen, parentPath, key) {
            errors := errors + [ErrorAt(parentPath, KeyLine(l, indent, key))];
          }
          seen := Insert(seen, parentPath, key);
          stack := stack + [KeyLine(l, indent, key)];
          n := n + 1;
      }
    }
    assert lines[..|lines|] == lines;
  }

  lemma NoKeyLines()
    ensures KeyLines([]) == []
  {
  }

  lemma NothingSeen(ks: seq<KeyLine>)
    ensures Seen(ks, 0, map[])
  {
  }

  // When joined paths tell enclosing lines apart.

  predicate DotFree(stack: seq<KeyLine>) {
    forall k | k in stack :: '.' !in k.key
  }

  function KeysOf(stack: seq<KeyLine>): seq<string> {
    if stack == [] then [] else KeysOf(stack[..|stack| - 1]) + [stack[|stack| - 1].key]
  }

  lemma PathSnoc(stack: seq<KeyLine>)
    requires stack != []
    ensures PathOf(stack) == PathOf(stack[..|stack| - 1]) + "." + stack[|stack| - 1].key
  {
  }

  function AfterLastDot(s: string): string {
    if s == [] || s[|s| - 1] == '.' then "" else AfterLastDot(s[..|s| - 1]) + [s[|s| - 1]]
  }

  lemma {:induction false} AfterLastDotOf(a: string, b: string)
    requires '.' !in b
    ensures AfterLastDot(a + "." + b) == b
    decreases |b|
  {
    var s := a + "." + b;
    if b == [] {
      assert s[|s| - 1] == '.';
    } else {
      AfterLastDotOf(a, b[..|b| - 1]);
      assert s[..|s| - 1] == a + "." + b[..|b| - 1] && s[|s| - 1] == b[|b| - 1];
    }
  }

  /** What follows the last dot, and what precedes it, are determined by the whole. */
  lemma LastDotSplits(a: string, b: string, c: string, d: string)
    requires a + "." + b == c + "." + d && '.' !in b && '.' !in d
    ensures a == c && b == d
  {
    AfterLastDotOf(a, b);
    AfterLastDotOf(c, d);
    assert a == (a + "." + b)[..|a|] && c == (c + "." + d)[..|c|];
  }

  /** The pieces of a chain of keys, one after another: where a key ends is forgotten. */
  function Segments(keys: seq<string>): (segments: seq<string>)
    ensures forall s | s in segments :: '.' !in s
    ensures keys == [] <==> segments == []
  {
    if keys == [] then [] else Segments(keys[..|keys| - 1]) + Split('.', keys[|keys| - 1])
  }

  function Dotted(segments: seq<string>): string {
    if segments == [] then "$" else Dotted(segments[..|segments| - 1]) + "." + segments[|segments| - 1]
  }

  lemma DottedSnoc(segments: seq<string>, s: string)
    ensures Dotted(segments + [s]) == Dotted(segments) + "." + s
  {
    assert (segments + [s])[..|segments|] == segments;
  }

  lemma DottedDot(segments: seq<string>, front: seq<string>, k: string)
    requires Dotted(segments + front) == Dotted(segments) + "." + k
    ensures Dotted(segments + (front + [""])) == Dotted(segments) + "." + (k + ".")
  {
    hide Dotted;
    DottedSnoc(segments + front, "");
    assert segments + (front + [""]) == segments + front + [""];
    assert Dotted(segments) + "." + k + "." + "" == Dotted(segments) + "." + (k + ".");
  }

  lemma DottedChar(segments: seq<string>, front: seq<string>, s: string, k: string, c: char)
    requires Dotted(segments + (front + [s])) == Dotted(segments) + "." + k
    ensures Dotted(segments + (front + [s + [c]])) == Dotted(segments) + "." + (k + [c])
  {
    hide Dotted;
    DottedSnoc(segments + front, s);
    DottedSnoc(segments + front, s + [c]);
    assert segments + (front + [s]) == segments + front + [s];
    assert segments + (front + [s + [c]]) == segments + front + [s + [c]];
    assert Dotted(segments + front) + "." + (s + [c]) == Dotted(segments + front) + "." + s + [c];
    assert Dotted(segments) + "." + k + [c] == Dotted(segments) + "." + (k + [c]);
  }

  /** Appending a key to a path appends its pieces. */
  lemma {:induction false} DottedPieces(segments: seq<string>, key: string)
    ensures Dotted(segments + Split('.', key)) == Dotted(segments) + "." + key
  {
    if key == "" {
      DottedSnoc(segments, "");
    } else {
      var k, c := key[..|key| - 1], key[|key| - 1];
      var front := Split('.', k);
      var n := |front| - 1;
      DottedPieces(segments, k);
      hide Dotted;
      assert key == k + [c] && front == front[..n] + [front[n]];
      if c == '.' { DottedDot(segments, front, k); } else { DottedChar(segments, front[..n], front[n], k, c); }
    }
  }

  /** A joined path is the dotted form of its segments. */
  lemma {:induction false} PathIsDotted(stack: seq<KeyLine>)
    ensures PathOf(stack) == Dotted(Segments(KeysOf(stack)))
  {
    if stack != [] {
      var front, key := stack[..|stack| - 1], stack[|stack| - 1].key;
      PathIsDotted(front);
      PathSnoc(stack);
      assert KeysOf(stack)[..|KeysOf(stack)| - 1] == KeysOf(front);
      DottedPieces(Segments(KeysOf(front)), key);
    }
  }

  lemma {:induction false} DottedInjective(a: seq<string>, b: seq<string>)
    requires (forall s | s in a :: '.' !in s) && (forall s | s in b :: '.' !in s)
    requires Dotted(a) == Dotted(b)
    ensures a == b
  {
    if a != [] && b != [] {
      var a2, b2 := a[..|a| - 1], b[..|b| - 1];
      LastDotSplits(Dotted(a2), a[|a| - 1], Dotted(b2), b[|b| - 1]);
      DottedInjective(a2, b2);
      assert a == a2 + [a[|a| - 1]] && b == b2 + [b[|b| - 1]];
    } else if a != [] {
      DottedIsLonger(a);
    } else if b != [] {
      DottedIsLonger(b);
    }
  }

  lemma {:induction false} DottedIsLonger(a: seq<string>)
    ensures |Dotted(a)| > |a|
  {
    if a != [] { DottedIsLonger(a[..|a| - 1]); }
  }

  /** What a joined path tells: exactly the segments of the enclosing keys, whatever keys they make up. */
  lemma {:induction false} PathsTellSegmentsApart(a: seq<KeyLine>, b: seq<KeyLine>)
    ensures PathOf(a) == PathOf(b) <==> Segments(KeysOf(a)) == Segments(KeysOf(b))
  {
    PathIsDotted(a);
    PathIsDotted(b);
    if PathOf(a) == PathOf(b) { DottedInjective(Segments(KeysOf(a)), Segments(KeysOf(b))); }
  }

  lemma {:induction false} PieceOfDotFree(key: string)
    requires '.' !in key
    ensures Split('.', key) == [key]
  {
    if key != "" {
      var k := key[..|key| - 1];
      PieceOfDotFree(k);
      assert key == k + [key[|key| - 1]];
    }
  }

  lemma {:induction false} SegmentsOfDotFree(stack: seq<KeyLine>)
    requires DotFree(stack)
    ensures Segments(KeysOf(stack)) == KeysOf(stack)
  {
    if stack != [] {
      var front, key := stack[..|stack| - 1], stack[|stack| - 1].key;
      SegmentsOfDotFree(front);
      PieceOfDotFree(key);
      assert KeysOf(stack)[..|KeysOf(stack)| - 1] == KeysOf(front);
    }
  }

  /** The keys that enclose line `i`, outermost first. */
  function EnclosingKeys(ks: seq<KeyLine>, i: nat): seq<string>
    requires i < |ks|
  {
    KeysOf(Enclosing(ks, i))
  }

  /** Lines `j` and `i` have the same key, enclosed by the same keys. */
  predicate SamePlace(ks: seq<KeyLine>, j: nat, i: nat)
    requires j < |ks| && i < |ks|
  {
    ks[j].key == ks[i].key && EnclosingKeys(ks, j) == EnclosingKeys(ks, i)
  }

  /** Lines `j` and `i` have the same key, enclosed by keys with the same segments. */
  predicate SameSegments(ks: seq<KeyLine>, j: nat, i: nat)
    requires j < |ks| && i < |ks|
  {
    ks[j].key == ks[i].key && Segments(EnclosingKeys(ks, j)) == Segments(EnclosingKeys(ks, i))
  }

  /** An earlier line has the same key, enclosed by the same keys. */
  predicate RepeatsInPlace(ks: seq<KeyLine>, i: nat)
    requires i < |ks|
  {
    exists j :: 0 <= j < i && SamePlace(ks, j, i)
  }

  /** A line is reported exactly when an earlier one has its key under enclosing keys of the same segments. */
  lemma {:induction false} ReportedExactlyBySegments(ks: seq<KeyLine>, i: nat)
    requires i < |ks|
    ensures Repeats(ks, i) <==> exists j :: 0 <= j < i && SameSegments(ks, j, i)
  {
    forall j | 0 <= j < i ensures ParentPath(ks, j) == ParentPath(ks, i) <==>
                                  Segments(EnclosingKeys(ks, j)) == Segments(EnclosingKeys(ks, i))
    {
      PathsTellSegmentsApart(Enclosing(ks, j), Enclosing(ks, i));
    }
    hide ParentPath, EnclosingKeys, Segments;
    if Repeats(ks, i) {
      var j :| 0 <= j < i && ks[j].key == ks[i].key && ParentPath(ks, j) == ParentPath(ks, i);
      assert SameSegments(ks, j, i);
    }
    if j :| 0 <= j < i && SameSegments(ks, j, i) {
      assert ParentPath(ks, j) == ParentPath(ks, i);
    }
  }

  /**
   A key repeated among the same enclosing keys is always reported. A report is spurious, with no such
   repetition behind it, exactly when each earlier line with the key under the same segments, and there is one,
   is enclosed by keys that divide those segments differently.
   */
  lemma {:induction false} SpuriousExactlyWhenDividedDifferently(ks: seq<KeyLine>, i: nat)
    requires i < |ks|
    ensures RepeatsInPlace(ks, i) ==> Repeats(ks, i)
    ensures Repeats(ks, i) && !RepeatsInPlace(ks, i) <==>
            && (exists j :: 0 <= j < i && SameSegments(ks, j, i))
            && (forall j | 0 <= j < i && SameSegments(ks, j, i) :: EnclosingKeys(ks, j) != EnclosingKeys(ks, i))
  {
    ReportedExactlyBySegments(ks, i);
    hide Repeats, EnclosingKeys, Segments;
    if RepeatsInPlace(ks, i) {
      var j :| 0 <= j < i && SamePlace(ks, j, i);
      assert SameSegments(ks, j, i);
    }
    if j :| 0 <= j < i && SameSegments(ks, j, i) && EnclosingKeys(ks, j) == EnclosingKeys(ks, i) {
      assert SamePlace(ks, j, i);
    }
  }

  /** Only a dot in a key that encloses this line, or one with the same key, can make a report spurious. */
  lemma {:induction false} DotFreeRepeatsAreInPlace(ks: seq<KeyLine>, i: nat)
    requires i < |ks|
    requires forall j | 0 <= j <= i && ks[j].key == ks[i].key :: DotFree(Enclosing(ks, j))
    ensures Repeats(ks, i) <==> RepeatsInPlace(ks, i)
  {
    SpuriousExactlyWhenDividedDifferently(ks, i);
    forall j | 0 <= j <= i && ks[j].key == ks[i].key ensures Segments(EnclosingKeys(ks, j)) == EnclosingKeys(ks, j) {
      SegmentsOfDotFree(Enclosing(ks, j));
    }
  }

  // What a plain line is read as.

  function Spaces(n: nat): (s: string)
    ensures |s| == n && forall i | 0 <= i < n :: s[i] == ' '
  {
    if n == 0 then "" else " " + Spaces(n - 1)
  }

  lemma {:induction false} Utf8OfSpaces(s: string)
    requires forall i | 0 <= i < |s| :: s[i] == ' '
    ensures Utf8Length(s) == |s|
  {
    if s != [] { Utf8OfSpaces(s[1..]); }
  }

  predicate PlainKey(key: string) {
    && IsKey(key) && key[0] != '-'
    && (forall c | c in key :: !IsWhitespace(c) && c != ':' && c != '#')
    && key[0] != '\"' && key[0] != '\'' && key[|key| - 1] != '\"' && key[|key| - 1] != '\''
  }

  lemma HeadIsKept(head: string, rest: string)
    requires '#' !in head && head != [] && !IsWhitespace(head[|head| - 1])
    ensures head <= TrimEnd(BeforeFirst(head + rest, '#'))
  {
    var line := head + rest;
    assert forall i | 0 <= i < |head| :: line[i] == head[i];
    var code := BeforeFirst(line, '#');
    assert head <= code;
    hide IsWhitespace, BeforeFirst;
    assert code[|head| - 1] == head[|head| - 1];
  }

  lemma IndentIsDropped(n: nat, s: string)
    requires n < |s| && !IsWhitespace(s[n]) && forall i | 0 <= i < n :: s[i] == ' '
    ensures TrimStart(s) == s[n..]
  {
    if n > 0 { IndentIsDropped(n - 1, s[1..]); }
  }

  lemma Unquoted(key: string)
    requires PlainKey(key)
    ensures TrimMatches(TrimMatches(key, '\"'), '\'') == key && Trim(key) == key
    ensures key != [] && !IsWhitespace(key[0]) && key[0] != '-' && ':' !in key && '#' !in key
  {
    assert !IsWhitespace(key[0]) && !IsWhitespace(key[|key| - 1]);
    TrimKeeps(key);
  }

  lemma CodeIsRead(n: nat, key: string, code: string)
    requires PlainKey(key) && n + |key| < |code|
    requires (forall i | 0 <= i < n :: code[i] == ' ') && code[n..n + |key|] == key && code[n + |key|] == ':'
    ensures KeyOfCode(code) == Some((n, key))
  {
    Unquoted(key);
    hide IsWhitespace, Trim, TrimMatches, IsKey;
    assert code[n] == code[n..n + |key|][0] == key[0];
    IndentIsDropped(n, code);
    Utf8OfSpaces(code[..n]);
    var trimmed := code[n..];
    assert trimmed[..|key|] == key && trimmed[|key|] == ':' && trimmed[0] == key[0];
    FindAt(trimmed, ':', |key|);
    hide TrimStart, Utf8Length, Find;
    assert !IsBlank(code);
  }

  /** An indented `key: value` line is read as its indentation and key, whatever its value or comment. */
  lemma {:induction false} PlainKeyIsRead(n: nat, key: string, rest: string)
    requires PlainKey(key)
    ensures KeyAtLine(Spaces(n) + key + ":" + rest) == Some((n, key))
  {
    Unquoted(key);
    assert !IsWhitespace(':');
    hide IsWhitespace, PlainKey, BeforeFirst, TrimEnd, KeyOfCode, Spaces, Trim, TrimMatches;
    var head := Spaces(n) + key + ":";
    assert forall i | 0 <= i < n :: head[i] == ' ';
    assert head[n..n + |key|] == key && head[n + |key|] == ':';
    HeadIsKept(head, rest);
    CodeIsRead(n, key, TrimEnd(BeforeFirst(head + rest, '#')));
  }

  lemma TrimKeeps(key: string)
    requires key != [] && !IsWhitespace(key[0]) && !IsWhitespace(key[|key| - 1])
    ensures Trim(key) == key
  {
    assert TrimStart(key) == key;
    assert TrimEnd(key) == key;
  }

  const COLLIDING: seq<KeyLine> :=
    [KeyLine(0, 0, "a.b"), KeyLine(1, 1, "c"), KeyLine(2, 0, "a"), KeyLine(3, 1, "b"), KeyLine(4, 2, "c")]

  lemma CollidingParents()
    ensures Enclosing(COLLIDING, 1) == [COLLIDING[0]]
    ensures Enclosing(COLLIDING, 4) == [COLLIDING[2], COLLIDING[3]]
  {
    var ks := COLLIDING;
    assert Parent(ks, 0) == None && Parent(ks, 1) == Some(0) && Parent(ks, 2) == None;
    assert Parent(ks, 3) == Some(2) && Parent(ks, 4) == Some(3);
    hide Parent;
    assert Enclosing(ks, 0) == [] && Enclosing(ks, 2) == [];
    assert Enclosing(ks, 3) == [ks[2]];
  }

  lemma CollidingPaths()
    ensures PathOf([COLLIDING[0]]) == PathOf([COLLIDING[2], COLLIDING[3]])
    ensures KeysOf([COLLIDING[0]]) != KeysOf([COLLIDING[2], COLLIDING[3]])
  {
    var two := [COLLIDING[2], COLLIDING[3]];
    assert two[..1] == [COLLIDING[2]];
    assert JoinKeys(two) == "a" + "." + "b" == "a.b" == JoinKeys([COLLIDING[0]]);
    assert KeysOf([COLLIDING[0]]) == ["a.b"];
    assert KeysOf([COLLIDING[2]]) == ["a"];
    assert KeysOf(two) == ["a", "b"];
  }

  lemma CollidingLast()
    ensures Repeats(COLLIDING, 4) && !RepeatsInPlace(COLLIDING, 4)
  {
    CollidingParents();
    CollidingPaths();
    hide Enclosing, PathOf, KeysOf;
    assert COLLIDING[1].key == COLLIDING[4].key && ParentPath(COLLIDING, 1) == ParentPath(COLLIDING, 4);
    assert COLLIDING[0].key[0] == 'a' && COLLIDING[2].key[0] == 'a' && COLLIDING[3].key[0] == 'b';
  }

  const COLLIDING_LINES: seq<string> := ["a.b:", " c:", "a:", " b:", "  c:"]

  lemma ShortKeys()
    ensures PlainKey("a.b") && PlainKey("a") && PlainKey("b") && PlainKey("c")
  {
    assert IsKey("a.b") && IsKey("a") && IsKey("b") && IsKey("c");
  }

  lemma {:induction false} OneMoreKeyLine(lines: seq<string>, line: string, n: nat, key: string)
    requires PlainKey(key) && line == Spaces(n) + key + ":"
    ensures KeyLines(lines + [line]) == KeyLines(lines) + [KeyLine(|lines|, n, key)]
  {
    PlainKeyIsRead(n, key, "");
    assert line + "" == line && (lines + [line])[..|lines|] == lines;
  }

  lemma FewSpaces()
    ensures Spaces(0) == "" && Spaces(1) == " " && Spaces(2) == "  "
  {
  }

  lemma CollidingKeyLines()
    ensures KeyLines(COLLIDING_LINES) == COLLIDING
  {
    ShortKeys();
    FewSpaces();
    NoKeyLines();
    hide KeyLines, PlainKey, Spaces;
    assert "" + "a.b" + ":" == "a.b:" && " " + "c" + ":" == " c:" && "" + "a" + ":" == "a:";
    assert " " + "b" + ":" == " b:" && "  " + "c" + ":" == "  c:";
    OneMoreKeyLine([], "a.b:", 0, "a.b");
    OneMoreKeyLine([] + ["a.b:"], " c:", 1, "c");
    OneMoreKeyLine([] + ["a.b:"] + [" c:"], "a:", 0, "a");
    OneMoreKeyLine([] + ["a.b:"] + [" c:"] + ["a:"], " b:", 1, "b");
    OneMoreKeyLine([] + ["a.b:"] + [" c:"] + ["a:"] + [" b:"], "  c:", 2, "c");
    assert COLLIDING_LINES == [] + ["a.b:"] + [" c:"] + ["a:"] + [" b:"] + ["  c:"];
  }

  lemma CollidingLinesSplit()
    ensures Lines(Unlines(COLLIDING_LINES)) == COLLIDING_LINES
  {
    LinesOfUnlines(COLLIDING_LINES);
  }

  /**
   Keys with dots can share a path with nested ones: in the text of the lines `a.b:`, ` c:`, `a:`, ` b:`, `  c:`
   the last one is reported although no other `c` is enclosed by the same keys.
   */
  lemma DottedKeysCollide()
    ensures var ks := KeyLines(Lines(Unlines(COLLIDING_LINES)));
            && |ks| == 5 && Repeats(ks, 4) && !RepeatsInPlace(ks, 4)
            && ExpectedErrors(ks, 5) == ExpectedErrors(ks, 4) + [ErrorAt("$.a.b", ks[4])]
  {
    CollidingLinesSplit();
    CollidingKeyLines();
    CollidingLast();
    CollidingParents();
    CollidingPaths();
    hide KeyLines, Lines, Unlines, Enclosing, Repeats, RepeatsInPlace, KeysOf;
    assert ParentPath(COLLIDING, 4) == "$." + "a.b" == "$.a.b";
  }
}
