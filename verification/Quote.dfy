/** `shell_quote` and `step_command` (`janus/src/workflow/mod.rs:1027-1068,
    1094-1106`) against the quoting rules of the Shell Command Language
    (POSIX.1-2017, sections 2.2.1, 2.2.2 and 2.3). */
module Quote {
  import opened Wrappers
  import opened Envelope

  // --- The shell ------------------------------------------------------------

  predicate IsBlank(c: char) {
    c == ' ' || c == '\t'
  }

  /** Characters that, unquoted, make the shell do something other than add
      themselves to a word. */
  predicate IsSpecial(c: char) {
    || c == '|' || c == '&' || c == ';' || c == '<' || c == '>' || c == '(' || c == ')'
    || c == '$' || c == '`' || c == '"' || c == '\n' || c == '\U{0}'
    || c == '*' || c == '?' || c == '['
  }

  /** Characters that do so at the start of a word only: a comment, a home directory. */
  predicate IsOpener(c: char) {
    c == '#' || c == '~'
  }

  predicate IsPlain(c: char) {
    !IsBlank(c) && !IsSpecial(c) && c != '\'' && c != '\\'
  }

  /** The word read so far, none between words. */
  function Word(cur: Option<string>): string {
    if cur.Some? then cur.value else ""
  }

  /** The words of a simple command, None when it is anything else: a special
      character, an open quote, a trailing backslash. Reserved words are not
      told apart from others; the first word here is always `env`. */
  function Fields(t: string, cur: Option<string>): Option<seq<string>>
    decreases |t|
  {
    if t == [] then Some(if cur.None? then [] else [cur.value])
    else if IsBlank(t[0]) then
      var rest := Fields(t[1..], None);
      if rest.None? then None else Some((if cur.None? then [] else [cur.value]) + rest.value)
    else if t[0] == '\'' then InQuotes(t[1..], Word(cur))
    else if t[0] == '\\' then
      if |t| == 1 then None
      else if t[1] == '\U{0}' then None
      else if t[1] == '\n' then Fields(t[2..], cur)
      else Fields(t[2..], Some(Word(cur) + [t[1]]))
    else if IsSpecial(t[0]) || (cur.None? && IsOpener(t[0])) then None
    else Fields(t[1..], Some(Word(cur) + [t[0]]))
  }

  /** Inside single quotes every character up to the next one is literal. */
  function InQuotes(t: string, word: string): Option<seq<string>>
    decreases |t|
  {
    if t == [] || t[0] == '\U{0}' then None
    else if t[0] == '\'' then Fields(t[1..], Some(word))
    else InQuotes(t[1..], word + [t[0]])
  }

  // --- shell_quote ----------------------------------------------------------

  /** Each quote inside becomes: close, an escaped quote, reopen. */
  function Escaped(s: string): string {
    if s == [] then "" else Escaped(s[..|s| - 1]) + if s[|s| - 1] == '\'' then "'\\''" else [s[|s| - 1]]
  }

  function Quoted(s: string): string {
    "'" + Escaped(s) + "'"
  }

  method ShellQuote(s: string) returns (out: string)
    ensures out == Quoted(s)
  {
    out := "'";
    for i := 0 to |s|
      invariant out == "'" + Escaped(s[..i])
    {
      assert s[..i + 1][..i] == s[..i];
      if s[i] == '\'' {
        out := out + "'\\''";
      } else {
        out := out + [s[i]];
      }
    }
    assert s[..|s|] == s;
    out := out + "'";
  }

  predicate NulFree(s: string) {
    '\U{0}' !in s
  }

  lemma {:induction false} EscapedReads(s: string, word: string, rest: string)
    requires NulFree(s)
    ensures InQuotes(Escaped(s) + rest, word) == InQuotes(rest, word + s)
  {
    if s == [] {
      assert Escaped(s) + rest == rest && word + s == word;
    } else {
      var init, c := s[..|s| - 1], s[|s| - 1];
      assert word + s == word + init + [c];
      if c == '\'' {
        EscapedReads(init, word, "'\\''" + rest);
        assert Escaped(s) + rest == Escaped(init) + ("'\\''" + rest);
        ReopenReads(word + init, rest);
      } else {
        EscapedReads(init, word, [c] + rest);
        assert Escaped(s) + rest == Escaped(init) + ([c] + rest);
        assert ([c] + rest)[1..] == rest;
      }
    }
  }

  lemma ReopenReads(word: string, rest: string)
    ensures InQuotes("'\\''" + rest, word) == InQuotes(rest, word + "'")
  {
    var t, t1, t2 := "'\\''" + rest, "\\''" + rest, "'" + rest;
    assert t[1..] == t1 && t1[2..] == t2 && t2[1..] == rest;
    assert InQuotes(t, word) == Fields(t1, Some(word));
    assert Word(Some(word)) + [t1[1]] == word + "'";
    assert Fields(t1, Some(word)) == Fields(t2, Some(word + "'"));
    assert Fields(t2, Some(word + "'")) == InQuotes(rest, word + "'");
  }

  /** A quoted text adds exactly itself to the word being read, whatever follows. */
  lemma QuotedReads(s: string, cur: Option<string>, rest: string)
    requires NulFree(s)
    ensures Fields(Quoted(s) + rest, cur) == Fields(rest, Some(Word(cur) + s))
  {
    var t := Quoted(s) + rest;
    assert t[1..] == Escaped(s) + ("'" + rest);
    EscapedReads(s, Word(cur), "'" + rest);
    assert ("'" + rest)[1..] == rest;
  }

  // --- Lists ----------------------------------------------------------------

  /** Words as they are printed: a bare text, then possibly a quoted one. */
  datatype Item = Item(bare: string, quoted: Option<string>)
  {
    function Print(): string {
      bare + if quoted.Some? then Quoted(quoted.value) else ""
    }

    function Meaning(): string {
      bare + if quoted.Some? then quoted.value else ""
    }

    /** The bare part needs no quoting, and the word is not empty without quotes. */
    predicate Sound() {
      && (forall i | 0 <= i < |bare| :: IsPlain(bare[i])) && (bare == "" || !IsOpener(bare[0]))
      && (if quoted.Some? then NulFree(quoted.value) else bare != "")
    }
  }

  function PrintAll(items: seq<Item>): string {
    if items == [] then ""
    else if |items| == 1 then items[0].Print()
    else items[0].Print() + " " + PrintAll(items[1..])
  }

  function Meanings(items: seq<Item>): (r: seq<string>)
    ensures |r| == |items| && forall i | 0 <= i < |items| :: r[i] == items[i].Meaning()
  {
    if items == [] then [] else [items[0].Meaning()] + Meanings(items[1..])
  }

  lemma FirstPlain(t: string, cur: Option<string>)
    requires t != "" && IsPlain(t[0]) && (cur.Some? || !IsOpener(t[0]))
    ensures Fields(t, cur) == Fields(t[1..], Some(Word(cur) + [t[0]]))
  {
  }

  lemma WordGrows(s: string, cur: Option<string>)
    requires s != ""
    ensures var next := Some(Word(cur) + [s[0]]);
            (if s[1..] == "" then next else Some(Word(next) + s[1..])) == Some(Word(cur) + s)
  {
    assert Word(cur) + [s[0]] + s[1..] == Word(cur) + s;
    assert s[1..] == "" ==> s == [s[0]];
  }

  lemma {:induction false} PlainReads(s: string, cur: Option<string>, rest: string)
    requires (forall i | 0 <= i < |s| :: IsPlain(s[i])) && (s == "" || cur.Some? || !IsOpener(s[0]))
    ensures Fields(s + rest, cur) == Fields(rest, if s == "" then cur else Some(Word(cur) + s))
  {
    if s == "" {
      assert s + rest == rest;
    } else {
      var next := Some(Word(cur) + [s[0]]);
      FirstPlain(s + rest, cur);
      assert (s + rest)[1..] == s[1..] + rest;
      hide *;
      PlainReads(s[1..], next, rest);
      WordGrows(s, cur);
    }
  }

  lemma ItemReads(item: Item, rest: string)
    requires item.Sound()
    ensures Fields(item.Print() + rest, None) == Fields(rest, Some(item.Meaning()))
  {
    hide IsPlain, IsOpener, Fields;
    if item.quoted.None? {
      assert item.Print() + rest == item.bare + rest;
      PlainReads(item.bare, None, rest);
      assert "" + item.bare == item.bare == item.Meaning();
    } else {
      var tail := Quoted(item.quoted.value) + rest;
      assert item.Print() + rest == item.bare + tail;
      PlainReads(item.bare, None, tail);
      var cur := if item.bare == "" then None else Some("" + item.bare);
      QuotedReads(item.quoted.value, cur, rest);
      assert Word(cur) + item.quoted.value == item.Meaning();
    }
  }

  /** Splitting what was printed gives the words back. */
  lemma {:induction false} PrintedReads(items: seq<Item>)
    requires forall i | 0 <= i < |items| :: items[i].Sound()
    ensures Fields(PrintAll(items), None) == Some(Meanings(items))
  {
    hide IsPlain, IsSpecial, IsOpener;
    if items != [] {
      if |items| == 1 {
        ItemReads(items[0], "");
        assert items[0].Print() + "" == PrintAll(items);
        assert Meanings(items) == [items[0].Meaning()];
      } else {
        var rest := " " + PrintAll(items[1..]);
        ItemReads(items[0], rest);
        assert items[0].Print() + rest == PrintAll(items);
        assert rest[1..] == PrintAll(items[1..]);
        assert Fields(rest, Some(items[0].Meaning())) ==
               (var more := Fields(PrintAll(items[1..]), None); if more.None? then None else Some([items[0].Meaning()] + more.value));
        PrintedReads(items[1..]);
      }
    }
  }

  function QuotedItems(words: seq<string>): (r: seq<Item>)
    ensures |r| == |words| && forall i | 0 <= i < |words| :: r[i] == Item("", Some(words[i]))
  {
    if words == [] then [] else [Item("", Some(words[0]))] + QuotedItems(words[1..])
  }

  lemma QuotedItem(word: string)
    ensures Item("", Some(word)).Meaning() == word
    ensures NulFree(word) ==> Item("", Some(word)).Sound()
  {
  }

  lemma QuotedMeanings(words: seq<string>)
    ensures Meanings(QuotedItems(words)) == words
    ensures (forall i | 0 <= i < |words| :: NulFree(words[i])) ==>
              forall i | 0 <= i < |words| :: QuotedItems(words)[i].Sound()
  {
    hide *;
    forall i | 0 <= i < |words|
      ensures Meanings(QuotedItems(words))[i] == words[i]
      ensures NulFree(words[i]) ==> QuotedItems(words)[i].Sound()
    {
      QuotedItem(words[i]);
    }
  }

  /** The space-joined quotes of any NUL-free list split back into the list. */
  lemma QuotedListRoundTrip(words: seq<string>)
    requires forall i | 0 <= i < |words| :: NulFree(words[i])
    ensures Fields(PrintAll(QuotedItems(words)), None) == Some(words)
  {
    hide *;
    QuotedMeanings(words);
    PrintedReads(QuotedItems(words));
  }

  /** No two texts share a quotation. */
  lemma QuotedInjective(a: string, b: string)
    requires NulFree(a) && NulFree(b) && Quoted(a) == Quoted(b)
    ensures a == b
  {
    QuotedReads(a, None, "");
    QuotedReads(b, None, "");
    assert Quoted(a) + "" == Quoted(b) + "";
    assert "" + a == a && "" + b == b;
  }

  // --- step_command ---------------------------------------------------------

  /** What the command line of a step is made of; paths, the clock and the
      devices are what the daemon finds at that moment. */
  datatype CommandParts = CommandParts(
    sockPath: string,
    stateDir: string,
    correction: Option<string>,
    agent: string,
    blueprint: string,
    task: Uuid,
    step: string,
    workflow: string,
    timestamp: string,
    devices: string,
    janush: string,
    command: Option<string>)

  predicate AllNulFree(p: CommandParts) {
    && NulFree(p.sockPath) && NulFree(p.stateDir) && (p.correction.Some? ==> NulFree(p.correction.value))
    && NulFree(p.agent) && NulFree(p.blueprint) && NulFree(p.step) && NulFree(p.workflow)
    && NulFree(p.timestamp) && NulFree(p.devices) && NulFree(p.janush) && (p.command.Some? ==> NulFree(p.command.value))
  }

  function Command(p: CommandParts): string {
    if p.command.Some? then p.command.value else "true"
  }

  const SOCKET_NAME := "JANUS_SOCK_PATH=/tmp/mm-"

  /** Local steps name the daemon's socket and state directory; remote ones the
      end of the reverse tunnel, with the host name unquoted. */
  function SocketItems(p: CommandParts, host: Option<string>): seq<Item> {
    match host
    case None => [Item("JANUS_SOCK_PATH=", Some(p.sockPath)), Item("HERDR_PLUGIN_STATE_DIR=", Some(p.stateDir))]
    case Some(h) => [Item(SOCKET_NAME + h + ".sock", None)]
  }

  function CorrectionItems(p: CommandParts): seq<Item> {
    if p.correction.Some? then [Item("METAMACH_CORRECTION_CONTEXT=", p.correction)] else []
  }

  function StepItems(p: CommandParts): seq<Item> {
    [Item("JANUS_AGENT=", Some(p.agent)), Item("JANUS_BLUEPRINT=", Some(p.blueprint)),
     Item("JANUS_TASK_ID=" + p.task, None), Item("JANUS_STEP=", Some(p.step)),
     Item("JANUS_WORKFLOW=", Some(p.workflow)), Item("JANUS_ENV_TIMESTAMP=", Some(p.timestamp)),
     Item("JANUS_ENV_TTY_DEVICES=", Some(p.devices))]
  }

  function CallItems(p: CommandParts): seq<Item> {
    [Item("", Some(p.janush)), Item("-c", None), Item("", Some(Command(p)))]
  }

  function StepCommand(p: CommandParts, host: Option<string>): seq<Item> {
    [Item("env", None)] + SocketItems(p, host) + CorrectionItems(p) + StepItems(p) + CallItems(p)
  }

  /** The characters of variable names, task ids and fixed paths. */
  predicate IsNameChar(c: char) {
    'A' <= c <= 'Z' || 'a' <= c <= 'z' || '0' <= c <= '9' || c == '_' || c == '=' || c == '-' || c == '/' || c == '.'
  }

  predicate IsName(s: string) {
    forall i | 0 <= i < |s| :: IsNameChar(s[i])
  }

  predicate AllSound(items: seq<Item>) {
    forall i | 0 <= i < |items| :: items[i].Sound()
  }

  lemma NamePlain(s: string)
    requires IsName(s)
    ensures (forall i | 0 <= i < |s| :: IsPlain(s[i])) && (s == "" || !IsOpener(s[0]))
  {
  }

  lemma BareSound(s: string)
    requires IsName(s) && s != ""
    ensures Item(s, None).Sound()
  {
    hide IsPlain, IsOpener, IsName;
    NamePlain(s);
  }

  lemma AssignmentSound(name: string, value: string)
    requires IsName(name) && NulFree(value)
    ensures Item(name, Some(value)).Sound()
  {
    hide IsPlain, IsOpener, IsName;
    NamePlain(name);
  }

  lemma UuidIsName(task: Uuid)
    ensures IsName(task)
  {
  }

  lemma NamesOfStep()
    ensures IsName("JANUS_AGENT=") && IsName("JANUS_STEP=") && IsName("JANUS_WORKFLOW=")
  {
  }

  lemma NameOfBlueprint()
    ensures IsName("JANUS_BLUEPRINT=")
  {
  }

  lemma NameOfTimestamp()
    ensures IsName("JANUS_ENV_TIMESTAMP=")
  {
  }

  lemma NameOfDevices()
    ensures IsName("JANUS_ENV_TTY_DEVICES=")
  {
  }

  lemma TaskItemSound(task: Uuid)
    ensures Item("JANUS_TASK_ID=" + task, None).Sound()
  {
    UuidIsName(task);
    BareSound("JANUS_TASK_ID=" + task);
  }

  lemma StepItemsSound(p: CommandParts)
    requires AllNulFree(p)
    ensures AllSound(StepItems(p))
  {
    hide IsName, NulFree, Item.Sound;
    NamesOfStep();
    NameOfBlueprint();
    NameOfTimestamp();
    NameOfDevices();
    TaskItemSound(p.task);
    AssignmentSound("JANUS_AGENT=", p.agent);
    AssignmentSound("JANUS_BLUEPRINT=", p.blueprint);
    AssignmentSound("JANUS_STEP=", p.step);
    AssignmentSound("JANUS_WORKFLOW=", p.workflow);
    AssignmentSound("JANUS_ENV_TIMESTAMP=", p.timestamp);
    AssignmentSound("JANUS_ENV_TTY_DEVICES=", p.devices);
  }

  lemma CallItemsSound(p: CommandParts)
    requires AllNulFree(p)
    ensures AllSound(CallItems(p))
  {
    assert NulFree("true");
    assert IsName("-c") && IsName("");
    hide IsName, NulFree, Item.Sound;
    AssignmentSound("", p.janush);
    BareSound("-c");
    AssignmentSound("", Command(p));
  }

  lemma SocketItemsSound(p: CommandParts, host: Option<string>)
    requires AllNulFree(p) && (host.Some? ==> forall i | 0 <= i < |host.value| :: IsPlain(host.value[i]))
    ensures AllSound(SocketItems(p, host))
  {
    match host
    case None =>
      assert IsName("JANUS_SOCK_PATH=") && IsName("HERDR_PLUGIN_STATE_DIR=");
      hide IsPlain, IsOpener, IsName, Item.Sound;
      AssignmentSound("JANUS_SOCK_PATH=", p.sockPath);
      AssignmentSound("HERDR_PLUGIN_STATE_DIR=", p.stateDir);
    case Some(h) =>
      assert IsName(".sock");
      NamePlain(".sock");
      SocketNameIsPlain();
      hide IsPlain, IsOpener, IsName;
      PlainConcat(SOCKET_NAME, h);
      PlainConcat(SOCKET_NAME + h, ".sock");
      assert (SOCKET_NAME + h + ".sock")[0] == SOCKET_NAME[0];
  }

  lemma SocketNameIsPlain()
    ensures (forall i | 0 <= i < |SOCKET_NAME| :: IsPlain(SOCKET_NAME[i])) && !IsOpener(SOCKET_NAME[0])
  {
    assert IsName(SOCKET_NAME);
    hide IsPlain;
    NamePlain(SOCKET_NAME);
  }

  lemma PlainConcat(a: string, b: string)
    requires (forall i | 0 <= i < |a| :: IsPlain(a[i])) && forall i | 0 <= i < |b| :: IsPlain(b[i])
    ensures forall i | 0 <= i < |a + b| :: IsPlain((a + b)[i])
  {
  }

  lemma CorrectionItemsSound(p: CommandParts)
    requires AllNulFree(p)
    ensures AllSound(CorrectionItems(p))
  {
    if p.correction.Some? {
      assert IsName("METAMACH_CORRECTION_CONTEXT=");
      AssignmentSound("METAMACH_CORRECTION_CONTEXT=", p.correction.value);
    }
  }

  lemma SoundConcat(a: seq<Item>, b: seq<Item>)
    requires AllSound(a) && AllSound(b)
    ensures AllSound(a + b)
  {
  }

  /** The words a local step means. */
  function LocalWords(p: CommandParts): seq<string> {
    ["env", "JANUS_SOCK_PATH=" + p.sockPath, "HERDR_PLUGIN_STATE_DIR=" + p.stateDir] + CommonWords(p)
  }

  /** The words a remote step means: the socket is the end of the tunnel named
      after the host, and there is no state directory. */
  function RemoteWords(p: CommandParts, host: string): seq<string> {
    ["env", "JANUS_SOCK_PATH=/tmp/mm-" + host + ".sock"] + CommonWords(p)
  }

  /** `janush` gets the step's command, whatever is in it, as the one argument
      after `-c`, and `true` for a step without one. */
  function CommonWords(p: CommandParts): seq<string> {
    (if p.correction.Some? then ["METAMACH_CORRECTION_CONTEXT=" + p.correction.value] else [])
    + ["JANUS_AGENT=" + p.agent, "JANUS_BLUEPRINT=" + p.blueprint, "JANUS_TASK_ID=" + p.task, "JANUS_STEP=" + p.step,
       "JANUS_WORKFLOW=" + p.workflow, "JANUS_ENV_TIMESTAMP=" + p.timestamp, "JANUS_ENV_TTY_DEVICES=" + p.devices]
    + [p.janush, "-c", if p.command.Some? then p.command.value else "true"]
  }

  lemma StepCommandSound(p: CommandParts, host: Option<string>)
    requires AllNulFree(p) && (host.Some? ==> forall i | 0 <= i < |host.value| :: IsPlain(host.value[i]))
    ensures AllSound(StepCommand(p, host))
  {
    assert IsName("env");
    BareSound("env");
    SocketItemsSound(p, host);
    CorrectionItemsSound(p);
    StepItemsSound(p);
    CallItemsSound(p);
    hide AllNulFree, AllSound, SocketItems, CorrectionItems, StepItems, CallItems, IsPlain;
    assert AllSound([Item("env", None)]) by { EnvSound(); }
    SoundConcat([Item("env", None)], SocketItems(p, host));
    SoundConcat([Item("env", None)] + SocketItems(p, host), CorrectionItems(p));
    SoundConcat([Item("env", None)] + SocketItems(p, host) + CorrectionItems(p), StepItems(p));
    SoundConcat([Item("env", None)] + SocketItems(p, host) + CorrectionItems(p) + StepItems(p), CallItems(p));
  }

  lemma EnvSound()
    ensures AllSound([Item("env", None)])
  {
  }

  lemma MeaningsConcat(a: seq<Item>, b: seq<Item>)
    ensures Meanings(a + b) == Meanings(a) + Meanings(b)
  {
  }

  lemma GroupMeanings(p: CommandParts)
    ensures Meanings([Item("env", None)]) == ["env"]
    ensures Meanings(SocketItems(p, None)) == ["JANUS_SOCK_PATH=" + p.sockPath, "HERDR_PLUGIN_STATE_DIR=" + p.stateDir]
    ensures Meanings(CorrectionItems(p)) == if p.correction.Some? then ["METAMACH_CORRECTION_CONTEXT=" + p.correction.value] else []
    ensures Meanings(CallItems(p)) == [p.janush, "-c", Command(p)]
  {
    assert Item("env", None).Meaning() == "env" && Item("-c", None).Meaning() == "-c";
    assert Item("", Some(p.janush)).Meaning() == p.janush && Item("", Some(Command(p))).Meaning() == Command(p);
  }

  lemma StepMeanings(p: CommandParts)
    ensures Meanings(StepItems(p)) ==
              ["JANUS_AGENT=" + p.agent, "JANUS_BLUEPRINT=" + p.blueprint, "JANUS_TASK_ID=" + p.task, "JANUS_STEP=" + p.step,
               "JANUS_WORKFLOW=" + p.workflow, "JANUS_ENV_TIMESTAMP=" + p.timestamp, "JANUS_ENV_TTY_DEVICES=" + p.devices]
  {
    assert Item("JANUS_TASK_ID=" + p.task, None).Meaning() == "JANUS_TASK_ID=" + p.task;
  }

  lemma CommandMeanings(p: CommandParts, host: Option<string>)
    ensures Meanings(StepCommand(p, host)) == ["env"] + Meanings(SocketItems(p, host)) + CommonWords(p)
  {
    GroupMeanings(p);
    StepMeanings(p);
    hide Meanings, SocketItems, CorrectionItems, StepItems, CallItems;
    var env, sock, corr, step, call := [Item("env", None)], SocketItems(p, host), CorrectionItems(p), StepItems(p), CallItems(p);
    MeaningsConcat(env, sock);
    MeaningsConcat(env + sock, corr);
    MeaningsConcat(env + sock + corr, step);
    MeaningsConcat(env + sock + corr + step, call);
  }

  lemma LocalMeanings(p: CommandParts)
    ensures Meanings(StepCommand(p, None)) == LocalWords(p)
  {
    GroupMeanings(p);
    CommandMeanings(p, None);
    hide StepCommand, Meanings, SocketItems, CommonWords;
  }

  lemma RemoteMeanings(p: CommandParts, host: string)
    ensures Meanings(StepCommand(p, Some(host))) == RemoteWords(p, host)
  {
    CommandMeanings(p, Some(host));
    var word := SOCKET_NAME + host + ".sock";
    assert Meanings(SocketItems(p, Some(host))) == [word] by { Bare(word); }
    hide StepCommand, Meanings, SocketItems, CommonWords;
  }

  /** A local step's command line splits into exactly the intended words. */
  lemma StepCommandReads(p: CommandParts)
    requires AllNulFree(p)
    ensures Fields(PrintAll(StepCommand(p, None)), None) == Some(LocalWords(p))
  {
    hide AllNulFree, StepCommand, LocalWords, Fields, PrintAll, Item.Sound;
    StepCommandSound(p, None);
    PrintedReads(StepCommand(p, None));
    LocalMeanings(p);
  }

  /** A remote one does when the host name needs no quoting. */
  lemma RemoteCommandReads(p: CommandParts, host: string)
    requires AllNulFree(p) && forall i | 0 <= i < |host| :: IsPlain(host[i])
    ensures Fields(PrintAll(StepCommand(p, Some(host))), None) == Some(RemoteWords(p, host))
  {
    hide AllNulFree, StepCommand, RemoteWords, Fields, PrintAll, Item.Sound, IsPlain;
    StepCommandSound(p, Some(host));
    PrintedReads(StepCommand(p, Some(host)));
    RemoteMeanings(p, host);
  }

  // --- The host name --------------------------------------------------------

  /** How many equals signs there are. */
  function Equals(s: string): nat {
    if s == [] then 0 else Equals(s[1..]) + if s[0] == '=' then 1 else 0
  }

  lemma {:induction false} EqualsConcat(a: string, b: string)
    ensures Equals(a + b) == Equals(a) + Equals(b)
  {
    if a == [] {
      assert a + b == b;
    } else {
      assert (a + b)[1..] == a[1..] + b;
      EqualsConcat(a[1..], b);
    }
  }

  /** A word that was begun stays at the front. */
  lemma {:induction false} WordBegun(t: string, w: string, f: seq<string>)
    requires Fields(t, Some(w)) == Some(f)
    ensures f != [] && w <= f[0]
    decreases |t|
  {
    if t == [] || IsBlank(t[0]) {
    } else if t[0] == '\'' {
      QuotedBegun(t[1..], w, f);
    } else if t[0] == '\\' {
      if t[1] == '\n' {
        WordBegun(t[2..], w, f);
      } else {
        WordBegun(t[2..], w + [t[1]], f);
      }
    } else {
      WordBegun(t[1..], w + [t[0]], f);
    }
  }

  lemma {:induction false} QuotedBegun(t: string, w: string, f: seq<string>)
    requires InQuotes(t, w) == Some(f)
    ensures f != [] && w <= f[0]
    decreases |t|
  {
    if t[0] == '\'' {
      WordBegun(t[1..], w, f);
    } else {
      QuotedBegun(t[1..], w + [t[0]], f);
    }
  }

  /** An open quote swallows the name of the next assignment. */
  lemma {:induction false} NameSwallowed(name: string, more: string, w: string, f: seq<string>)
    requires InQuotes(name + "'" + more, w) == Some(f) && '\'' !in name
    ensures f != [] && w + name <= f[0]
    decreases |name|
  {
    var t := name + "'" + more;
    if name == "" {
      assert t[1..] == more && w + name == w;
      WordBegun(more, w, f);
    } else {
      assert t[1..] == name[1..] + "'" + more && w + [t[0]] + name[1..] == w + name;
      NameSwallowed(name[1..], more, w + [t[0]], f);
    }
  }

  /** The rest of a word and what follows it: a blank, then an assignment whose
      value is quoted. */
  function Followed(s: string, name: string, more: string): string {
    s + (" " + name + "'" + more)
  }

  /** What reading `s` behind `w` can make of the word: more equals signs than
      went in, or fewer characters, or `s` itself if it needs no quoting. */
  ghost predicate ReadsAs(s: string, w: string, f: seq<string>) {
    f != [] && (Equals(f[0]) > Equals(w) + Equals(s) || |f[0]| < |w| + |s|
                || (|f[0]| == |w| + |s| && forall i | 0 <= i < |s| :: IsPlain(s[i])))
  }

  predicate EndsPlain(s: string) {
    s == "" || IsPlain(s[|s| - 1])
  }

  lemma EqualsNext(w: string, c: char, s: string)
    requires s != ""
    ensures Equals(w + [c]) == Equals(w) + if c == '=' then 1 else 0
    ensures Equals(s) == Equals(s[1..]) + if s[0] == '=' then 1 else 0
  {
    EqualsConcat(w, [c]);
    assert [c][1..] == [];
  }

  lemma {:induction false} WordReads(s: string, name: string, more: string, w: string, f: seq<string>)
    requires Fields(Followed(s, name, more), Some(w)) == Some(f) && EndsPlain(s) && '\'' !in name && Equals(name) > 0
    ensures ReadsAs(s, w, f)
    decreases |s|
  {
    var t := Followed(s, name, more);
    if s == "" {
      assert t[0] == ' ' && f[0] == w;
    } else if IsBlank(s[0]) {
      assert f[0] == w;
    } else {
      assert t[0] == s[0] && t[1..] == Followed(s[1..], name, more);
      EqualsNext(w, s[0], s);
      if s[0] == '\'' {
        QuotedWordReads(s[1..], name, more, w, f);
      } else if s[0] == '\\' {
        assert |s| > 1 && t[1] == s[1] && t[2..] == Followed(s[2..], name, more);
        EqualsNext(w, s[1], s[1..]);
        if s[1] == '\n' {
          WordReads(s[2..], name, more, w, f);
        } else {
          WordReads(s[2..], name, more, w + [s[1]], f);
        }
      } else {
        WordReads(s[1..], name, more, w + [s[0]], f);
      }
    }
  }

  lemma {:induction false} QuotedWordReads(s: string, name: string, more: string, w: string, f: seq<string>)
    requires InQuotes(Followed(s, name, more), w) == Some(f) && EndsPlain(s) && '\'' !in name && Equals(name) > 0
    ensures f != [] && (Equals(f[0]) > Equals(w) + Equals(s) || |f[0]| <= |w| + |s|)
    decreases |s|
  {
    var t := Followed(s, name, more);
    if s == "" {
      assert t == (" " + name) + "'" + more;
      NameSwallowed(" " + name, more, w, f);
      EqualsConcat(w, " " + name);
      EqualsConcat(" ", name);
      var after := f[0][|w + (" " + name)|..];
      assert f[0] == w + (" " + name) + after;
      EqualsConcat(w + (" " + name), after);
    } else {
      assert t[0] == s[0] && t[1..] == Followed(s[1..], name, more);
      EqualsNext(w, s[0], s);
      if s[0] == '\'' {
        WordReads(s[1..], name, more, w, f);
      } else {
        QuotedWordReads(s[1..], name, more, w + [s[0]], f);
      }
    }
  }

  lemma EnvIsPlain()
    ensures forall i | 0 <= i < 3 :: IsPlain("env"[i])
  {
  }

  lemma BlankThen(word: string, rest: string)
    ensures var f := Fields(rest, None);
            Fields(" " + rest, Some(word)) == if f.None? then None else Some([word] + f.value)
  {
  }

  /** The second word of a remote command line. */
  lemma SecondWord(s: string, rest: string)
    ensures var f := Fields("env" + (" " + (SOCKET_NAME + (s + rest))), None);
            var g := Fields(s + rest, Some(SOCKET_NAME));
            f == if g.None? then None else Some(["env"] + g.value)
  {
    EnvIsPlain();
    SocketNameIsPlain();
    hide IsPlain, IsOpener, Fields;
    var tail := SOCKET_NAME + (s + rest);
    assert !IsOpener("env"[0]) by { EnvOpens(); }
    PlainReads("env", None, " " + tail);
    assert "" + "env" == "env";
    PlainReads(SOCKET_NAME, None, s + rest);
    assert "" + SOCKET_NAME == SOCKET_NAME;
    BlankThen("env", tail);
  }

  lemma EnvOpens()
    ensures !IsOpener('e')
  {
  }

  /** What follows the host: an assignment with a quoted value. */
  function NextItem(p: CommandParts): Item {
    if p.correction.Some? then Item("METAMACH_CORRECTION_CONTEXT=", p.correction) else Item("JANUS_AGENT=", Some(p.agent))
  }

  lemma HostItems(p: CommandParts, host: string)
    ensures var items := StepCommand(p, Some(host));
            && |items| > 3 && items[0] == Item("env", None) && items[1] == Item(SOCKET_NAME + host + ".sock", None)
            && items[2] == NextItem(p)
  {
    assert |CallItems(p)| == 3 && |StepItems(p)| == 7 && StepItems(p)[0] == Item("JANUS_AGENT=", Some(p.agent));
    hide CallItems, StepItems;
    assert |SocketItems(p, Some(host))| == 1;
  }

  lemma EqualsSign(a: string)
    ensures Equals(a + "=") > 0
  {
    EqualsConcat(a, "=");
    assert "="[1..] == [];
  }

  lemma NextItemName(p: CommandParts)
    ensures NextItem(p).quoted.Some? && Equals(NextItem(p).bare) > 0 && '\'' !in NextItem(p).bare
  {
    EqualsSign("METAMACH_CORRECTION_CONTEXT");
    EqualsSign("JANUS_AGENT");
    hide Equals;
    assert "METAMACH_CORRECTION_CONTEXT" + "=" == "METAMACH_CORRECTION_CONTEXT=" && "JANUS_AGENT" + "=" == "JANUS_AGENT=";
  }

  /** Three items, the last one with a quoted value. */
  lemma ThreePrinted(items: seq<Item>, host: string, name: string, value: string) returns (more: string)
    requires |items| > 3 && items[0] == Item("env", None) && items[1] == Item(SOCKET_NAME + host + ".sock", None)
    requires items[2] == Item(name, Some(value))
    ensures PrintAll(items) == "env" + (" " + (SOCKET_NAME + (host + ".sock" + (" " + name + "'" + more))))
  {
    FrontPrinted(items);
    Bare("env");
    Bare(SOCKET_NAME + host + ".sock");
    Assigned(name, value);
    hide *;
    var rest := PrintAll(items[3..]);
    more := Escaped(value) + "'" + " " + rest;
    Regroup(SOCKET_NAME, host, name, Escaped(value), rest);
  }

  lemma FrontPrinted(items: seq<Item>)
    requires |items| > 3
    ensures PrintAll(items) ==
              items[0].Print() + " " + (items[1].Print() + " " + (items[2].Print() + " " + PrintAll(items[3..])))
  {
    assert items[1..][1..] == items[2..] && items[2..][1..] == items[3..];
    assert PrintAll(items[2..]) == items[2].Print() + " " + PrintAll(items[3..]);
    assert PrintAll(items[1..]) == items[1].Print() + " " + PrintAll(items[2..]);
  }

  lemma Bare(bare: string)
    ensures Item(bare, None).Print() == bare && Item(bare, None).Meaning() == bare
  {
  }

  lemma Assigned(name: string, value: string)
    ensures Item(name, Some(value)).Print() == name + ("'" + Escaped(value) + "'")
  {
  }

  lemma Regroup(socket: string, host: string, name: string, value: string, rest: string)
    ensures "env" + " " + (socket + host + ".sock" + " " + (name + ("'" + value + "'") + " " + rest))
            == "env" + (" " + (socket + (host + ".sock" + (" " + name + "'" + (value + "'" + " " + rest)))))
  {
  }

  /** If the second word is what was meant, none of its characters needed quoting. */
  lemma MeantIsPlain(s: string, name: string, more: string, f: seq<string>)
    requires Fields("env" + (" " + (SOCKET_NAME + Followed(s, name, more))), None) == Some(f)
    requires |f| > 1 && f[1] == SOCKET_NAME + s && EndsPlain(s) && '\'' !in name && Equals(name) > 0
    ensures forall i | 0 <= i < |s| :: IsPlain(s[i])
  {
    var rest := " " + name + "'" + more;
    assert s + rest == Followed(s, name, more);
    hide *;
    SecondWord(s, rest);
    var g := Fields(s + rest, Some(SOCKET_NAME)).value;
    assert f[1] == g[0];
    MeantIsRead(s, name, more, g);
  }

  lemma MeantIsRead(s: string, name: string, more: string, g: seq<string>)
    requires Fields(Followed(s, name, more), Some(SOCKET_NAME)) == Some(g) && g != [] && g[0] == SOCKET_NAME + s
    requires EndsPlain(s) && '\'' !in name && Equals(name) > 0
    ensures forall i | 0 <= i < |s| :: IsPlain(s[i])
  {
    hide Fields, Followed, Equals, IsPlain, EndsPlain, SOCKET_NAME;
    WordReads(s, name, more, SOCKET_NAME, g);
    EqualsConcat(SOCKET_NAME, s);
  }

  /** The host name of a remote step is not quoted: the intended words come back
      exactly when no character of it needs quoting. */
  lemma RemoteCommandExactly(p: CommandParts, host: string)
    requires AllNulFree(p)
    ensures Fields(PrintAll(StepCommand(p, Some(host))), None) == Some(RemoteWords(p, host))
            <==> forall i | 0 <= i < |host| :: IsPlain(host[i])
  {
    if forall i | 0 <= i < |host| :: IsPlain(host[i]) {
      hide *;
      RemoteCommandReads(p, host);
    } else {
      HostItems(p, host);
      NextItemName(p);
      Joined(host);
      SockEndsPlain(host);
      hide *;
      RemoteMeanings(p, host);
      var items, s := StepCommand(p, Some(host)), host + ".sock";
      var more := ThreePrinted(items, host, NextItem(p).bare, NextItem(p).quoted.value);
      if Fields(PrintAll(items), None) == Some(Meanings(items)) {
        SameFollowed(s, NextItem(p).bare, more);
        MeantIsPlain(s, NextItem(p).bare, more, Meanings(items));
        assert forall i | 0 <= i < |host| :: host[i] == s[i];
      }
    }
  }

  lemma SameFollowed(s: string, name: string, more: string)
    ensures s + (" " + name + "'" + more) == Followed(s, name, more)
  {
  }

  lemma SockEndsPlain(host: string)
    ensures EndsPlain(host + ".sock")
  {
    assert (host + ".sock")[|host| + 4] == 'k';
  }

  lemma Joined(host: string)
    ensures Item(SOCKET_NAME + host + ".sock", None).Meaning() == SOCKET_NAME + (host + ".sock")
  {
  }
}
