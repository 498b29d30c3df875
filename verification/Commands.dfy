/** The console's command normaliser: what it accepts, and what a second pass does to it. */
module Commands {
  import opened Text

  const MAX_TEXT := 200
  const MAX_PLAYER := 16

  datatype Refusal = EmptyCommand | NoMessage | NoPlayer | NotListed
  datatype Verdict = Accepted(command: string) | Refused(why: Refusal)

  // ----- The normaliser ------------------------------------------------------------------

  predicate IsControl(c: char) {
    c <= '\U{1f}' || c == '\U{7f}'
  }

  predicate Plain(s: string) {
    forall c :: c in s ==> !IsControl(c)
  }

  function Blanked(s: string): (r: string)
    ensures |r| == |s| && Plain(r)
  {
    if s == [] then [] else [if IsControl(s[0]) then ' ' else s[0]] + Blanked(s[1..])
  }

  function Take(s: string): string {
    if |s| <= MAX_TEXT then s else s[..MAX_TEXT]
  }

  function Clean(text: string): string {
    Take(Strip(Blanked(text)))
  }

  predicate IsPlayerChar(c: char) {
    'A' <= c <= 'Z' || 'a' <= c <= 'z' || '0' <= c <= '9' || c == '_'
  }

  predicate IsPlayer(p: string) {
    1 <= |p| <= MAX_PLAYER && forall i :: 0 <= i < |p| ==> IsPlayerChar(p[i])
  }

  predicate IsFixed(s: string) {
    s == "list" || s == "save-all" || s == "save-all flush" || s == "whitelist list" || s == "stop"
  }

  function Validate(raw: string): Verdict {
    var cmd := Strip(raw);
    if cmd == [] then Refused(EmptyCommand)
    else
      SomeWord(raw);
      Recognised(cmd, Words(cmd), JoinWords(Words(Lower(cmd))))
  }

  /** The allow-list: `lowered` is the command in lower case with its blanks collapsed. */
  function Recognised(cmd: string, parts: seq<string>, lowered: string): Verdict
    requires parts != [] && parts[0] <= cmd
  {
    var head := Lower(parts[0]);
    if IsFixed(lowered) then Accepted(lowered)
    else if head == "say" then
      var message := Clean(cmd[|parts[0]|..]);
      if message == [] then Refused(NoMessage) else Accepted("say " + message)
    else if head == "kick" then
      if |parts| < 2 || !IsPlayer(parts[1]) then Refused(NoPlayer)
      else Accepted(Strip("kick " + parts[1] + " " + Clean(JoinWords(parts[2..]))))
    else if head == "op" || head == "deop" then
      if |parts| != 2 || !IsPlayer(parts[1]) then Refused(NoPlayer)
      else Accepted(head + " " + parts[1])
    else if head == "whitelist" && |parts| == 3 && (Lower(parts[1]) == "add" || Lower(parts[1]) == "remove") then
      if !IsPlayer(parts[2]) then Refused(NoPlayer)
      else Accepted("whitelist " + Lower(parts[1]) + " " + parts[2])
    else Refused(NotListed)
  }

  lemma SomeWord(raw: string)
    requires Strip(raw) != []
    ensures Words(Strip(raw)) != [] && Words(Strip(raw))[0] <= Strip(raw)
  {
    hide IsSpace;
    StripIsTrimmed(raw);
    var cmd := Strip(raw);
    assert Words(cmd) == [cmd[..WordEnd(cmd)]] + Words(cmd[WordEnd(cmd)..]);
  }

  // ----- What it can put on the wire -----------------------------------------------------

  /** The commands there are. */
  datatype Command =
    | Fixed(text: string)
    | Say(message: string)
    | Kick(player: string, reason: string)
    | Grant(verb: string, player: string)
    | Whitelist(action: string, player: string)

  function Render(c: Command): string {
    match c
    case Fixed(text) => text
    case Say(message) => "say " + message
    case Kick(player, reason) => if reason == [] then "kick " + player else "kick " + player + " " + reason
    case Grant(verb, player) => verb + " " + player
    case Whitelist(action, player) => "whitelist " + action + " " + player
  }

  predicate IsText(s: string) {
    Plain(s) && |s| <= 200 && (s != [] ==> !IsSpace(s[0]))
  }

  predicate WellFormed(c: Command) {
    match c
    case Fixed(text) => IsFixed(text)
    case Say(message) => message != [] && IsText(message)
    case Kick(player, reason) => IsPlayer(player) && IsText(reason) && Trimmed(reason)
    case Grant(verb, player) => (verb == "op" || verb == "deop") && IsPlayer(player)
    case Whitelist(action, player) => (action == "add" || action == "remove") && IsPlayer(player)
  }

  /** What a second pass makes of a command: no trailing blanks in a message, single blanks
      in a reason. */
  function Settled(c: Command): Command {
    match c
    case Say(message) => Say(StripRight(message))
    case Kick(player, reason) => Kick(player, JoinWords(Words(reason)))
    case _ => c
  }

  // ----- Pieces --------------------------------------------------------------------------

  lemma {:induction false} BlankedKeepsPlain(s: string)
    requires Plain(s)
    ensures Blanked(s) == s
    decreases |s|
  {
    if s != [] {
      assert s[0] in s;
      assert forall c :: c in s[1..] ==> c in s;
      BlankedKeepsPlain(s[1..]);
    }
  }

  lemma CleanIsText(s: string)
    ensures IsText(Clean(s))
  {
    hide IsSpace, IsControl, Strip, Take;
    StripIsTrimmed(Blanked(s));
    StripWithin(Blanked(s));
    TakeIsText(Strip(Blanked(s)));
  }

  lemma TakeIsText(s: string)
    requires Plain(s) && Trimmed(s)
    ensures IsText(Take(s))
  {
    hide IsSpace, IsControl;
    assert forall c :: c in Take(s) ==> c in s;
  }

  lemma StripWithin(s: string)
    ensures forall c :: c in Strip(s) ==> c in s
  {
    hide IsSpace;
    assert forall c :: c in StripLeft(s) ==> c in s;
    assert forall c :: c in Strip(s) ==> c in StripLeft(s);
  }

  /** Cleaning leaves alone what is already clean and trimmed. */
  lemma CleanKeeps(s: string)
    requires IsText(s) && Trimmed(s)
    ensures Clean(s) == s && Clean(" " + s) == s
  {
    hide IsSpace, IsControl, Strip, StripLeft, StripRight;
    BlankedKeepsPlain(s);
    PlainBlank(s);
    BlankedKeepsPlain(" " + s);
    StripOfTrimmed(s);
    StripAfterBlank(s);
  }

  lemma PlainBlank(s: string)
    requires Plain(s)
    ensures Plain(" " + s)
  {
  }

  lemma StripAfterBlank(s: string)
    requires Trimmed(s)
    ensures Strip(" " + s) == s
  {
    hide IsSpace, StripLeft, StripRight, Trimmed;
    BlankLeft(s);
    StripOfTrimmed(s);
  }

  lemma BlankLeft(s: string)
    ensures StripLeft(" " + s) == StripLeft(s)
  {
    assert IsSpace(' ');
    hide IsSpace;
    assert (" " + s)[1..] == s && (" " + s)[0] == ' ';
  }

  lemma StripRightOfText(s: string)
    requires IsText(s)
    ensures IsText(StripRight(s)) && Trimmed(StripRight(s)) && (s != [] ==> StripRight(s) != [])
  {
    hide IsSpace, IsControl;
    var r := StripRight(s);
    assert forall c :: c in r ==> c in s;
    assert forall i :: |r| <= i < |s| ==> IsSpace(s[i]);
  }

  lemma PlayerIsWord(p: string)
    requires IsPlayer(p)
    ensures IsWord(p) && Plain(p)
  {
    hide IsPlayerChar, IsSpace, IsControl;
    forall i | 0 <= i < |p| ensures !IsSpace(p[i]) && !IsControl(p[i]) {
      PlayerChar(p[i]);
    }
  }

  lemma PlayerChar(c: char)
    requires IsPlayerChar(c)
    ensures !IsSpace(c) && !IsControl(c)
  {
  }

  lemma Verbs()
    ensures IsWord("list") && IsWord("save-all") && IsWord("flush") && IsWord("whitelist") && IsWord("stop")
    ensures IsWord("say") && IsWord("kick") && IsWord("op") && IsWord("deop") && IsWord("add") && IsWord("remove")
  {
  }

  lemma VerbsAreLower()
    ensures Lower("say") == "say" && Lower("kick") == "kick" && Lower("op") == "op" && Lower("deop") == "deop"
    ensures Lower("whitelist") == "whitelist" && Lower("add") == "add" && Lower("remove") == "remove"
    ensures Lower("list") == "list" && Lower("stop") == "stop" && Lower("flush") == "flush"
    ensures Lower("save-all") == "save-all"
  {
  }

  lemma FixedIsText(s: string)
    requires IsFixed(s)
    ensures Trimmed(s) && Plain(s) && 0 < |s| <= 14
  {
  }

  /** The fixed commands, word by word. */
  lemma FixedWords(s: string)
    requires IsFixed(s)
    ensures Words(s) == if s == "save-all flush" then ["save-all", "flush"]
                        else if s == "whitelist list" then ["whitelist", "list"] else [s]
    ensures JoinWords(Words(s)) == s
  {
    Verbs();
    hide IsSpace, IsWord, Words;
    WordsOfJoin(["save-all", "flush"]);
    WordsOfJoin(["whitelist", "list"]);
    if s == "list" || s == "save-all" || s == "stop" {
      WordsOfJoin([s]);
      JoinTwo(s, s);
    }
    JoinTwo("save-all", "flush");
    JoinTwo("whitelist", "list");
    assert "save-all" + " " + "flush" == "save-all flush";
    assert "whitelist" + " " + "list" == "whitelist list";
    hide JoinWords;
  }

  lemma JoinTwo(a: string, b: string)
    ensures JoinWords([a, b]) == a + " " + b && JoinWords([a]) == a
  {
    assert [a, b][1..] == [b];
  }

  /** Which word lists read as a fixed command. */
  lemma FixedOnly(cmd: string)
    requires IsFixed(JoinWords(Words(Lower(cmd))))
    ensures var ws := Words(cmd);
            || (|ws| == 1 && (Lower(ws[0]) == "list" || Lower(ws[0]) == "save-all" || Lower(ws[0]) == "stop"))
            || (|ws| == 2 && (Lower(ws[0]) == "save-all" || Lower(ws[0]) == "whitelist"))
  {
    hide IsSpace, Words, Lower, JoinWords;
    var lw := Words(Lower(cmd));
    WordsAreWords(Lower(cmd));
    WordsOfJoin(lw);
    FixedWords(JoinWords(lw));
    WordsOfLower(cmd);
  }

  // ----- First pass ----------------------------------------------------------------------

  lemma StripAfter(head: string, tail: string)
    requires head != [] && Trimmed(head)
    ensures StripRight(tail) == [] ==> Strip(head + " " + tail) == head
    ensures StripRight(tail) != [] ==> Strip(head + " " + tail) == head + " " + StripRight(tail)
  {
    hide IsSpace, Strip, StripRight, Trimmed;
    StripJoined(head, " " + tail);
    BlankThen(tail);
    assert head + " " + tail == head + (" " + tail);
    assert head + " " + StripRight(tail) == head + (" " + StripRight(tail));
  }

  lemma BlankThen(tail: string)
    ensures StripRight(tail) == [] ==> StripRight(" " + tail) == []
    ensures StripRight(tail) != [] ==> StripRight(" " + tail) == " " + StripRight(tail)
  {
    Visible(" ");
    hide IsSpace, StripRight;
    StripRightAppend(" ", tail);
  }

  lemma StripJoined(head: string, rest: string)
    requires head != [] && Trimmed(head)
    ensures StripRight(rest) == [] ==> Strip(head + rest) == head
    ensures StripRight(rest) != [] ==> Strip(head + rest) == head + StripRight(rest)
  {
    Visible(head);
    VisibleFirst(head, rest);
    hide IsSpace, Strip, StripLeft, StripRight, Trimmed;
    StripRightAppend(head, rest);
  }

  lemma VisibleFirst(head: string, rest: string)
    requires head != [] && !IsSpace(head[0])
    ensures Strip(head + rest) == StripRight(head + rest)
  {
    assert (head + rest)[0] == head[0];
  }

  lemma Visible(head: string)
    ensures head != [] && Trimmed(head) ==> !IsSpace(head[0]) && StripRight(head) == head
    ensures StripRight(" ") == []
  {
    assert " "[..0] == [];
  }

  lemma KickHead(player: string)
    requires IsPlayer(player)
    ensures Trimmed("kick " + player)
  {
    PlayerIsWord(player);
    var head := "kick " + player;
    assert head[|head| - 1] == player[|player| - 1];
  }

  lemma KickStrips(player: string, reason: string)
    requires IsPlayer(player)
    ensures Strip("kick " + player + " " + reason) == Render(Kick(player, StripRight(reason)))
  {
    KickHead(player);
    StripAfter("kick " + player, reason);
  }

  /** The verb, the player and the text of the command are those that were typed, the text
      cleaned and cut. */
  predicate Means(cmd: string, parts: seq<string>, lowered: string, c: Command) {
    match c
    case Fixed(text) => text == lowered
    case Say(message) =>
      |parts| > 0 && parts[0] <= cmd && Lower(parts[0]) == "say" && message == Clean(cmd[|parts[0]|..])
    case Kick(player, reason) =>
      && |parts| > 1 && Lower(parts[0]) == "kick" && parts[1] == player
      && reason == StripRight(Clean(JoinWords(parts[2..])))
    case Grant(verb, player) => |parts| == 2 && Lower(parts[0]) == verb && parts[1] == player
    case Whitelist(action, player) =>
      |parts| == 3 && Lower(parts[0]) == "whitelist" && Lower(parts[1]) == action && parts[2] == player
  }

  lemma RecognisedForm(cmd: string, parts: seq<string>, lowered: string) returns (c: Command)
    requires parts != [] && parts[0] <= cmd && Recognised(cmd, parts, lowered).Accepted?
    ensures WellFormed(c) && Means(cmd, parts, lowered, c) && (c.Fixed? <==> IsFixed(lowered))
    ensures Recognised(cmd, parts, lowered) == Accepted(Render(c))
  {
    var head := Lower(parts[0]);
    hide JoinWords, Lower, Strip, Clean, IsPlayer, IsText, Trimmed;
    if IsFixed(lowered) {
      c := Fixed(lowered);
    } else if head == "say" {
      CleanIsText(cmd[|parts[0]|..]);
      c := Say(Clean(cmd[|parts[0]|..]));
    } else if head == "kick" {
      var reason := Clean(JoinWords(parts[2..]));
      CleanIsText(JoinWords(parts[2..]));
      StripRightOfText(reason);
      KickStrips(parts[1], reason);
      c := Kick(parts[1], StripRight(reason));
    } else if head == "op" || head == "deop" {
      c := Grant(head, parts[1]);
    } else {
      c := Whitelist(Lower(parts[1]), parts[2]);
    }
  }

  /** Every accepted text is the rendering of one of the commands there are, with the verb
      and the player that were typed. */
  lemma AcceptedForm(raw: string) returns (c: Command)
    requires Validate(raw).Accepted?
    ensures WellFormed(c) && Validate(raw) == Accepted(Render(c))
    ensures Means(Strip(raw), Words(Strip(raw)), JoinWords(Words(Lower(Strip(raw)))), c) && Strip(raw) != []
    ensures c.Fixed? <==> IsFixed(JoinWords(Words(Lower(Strip(raw)))))
  {
    hide Recognised, WellFormed, Means, Render, Words, JoinWords, Lower;
    var cmd := Strip(raw);
    SomeWord(raw);
    hide Strip, IsFixed;
    c := RecognisedForm(cmd, Words(cmd), JoinWords(Words(Lower(cmd))));
  }

  // ----- What is accepted ----------------------------------------------------------------

  /** A character that is neither white space nor a control character. */
  predicate Shows(c: char) {
    !IsSpace(c) && c > '\U{1f}' && c != '\U{7f}'
  }

  predicate PlayerName(p: string) {
    && 1 <= |p| <= 16
    && forall i :: 0 <= i < |p| ==> 'A' <= p[i] <= 'Z' || 'a' <= p[i] <= 'z' || '0' <= p[i] <= '9' || p[i] == '_'
  }

  /** The words are those, in whatever case. */
  predicate Spells(ws: seq<string>, words: seq<string>) {
    |ws| == |words| && forall i :: 0 <= i < |ws| ==> SameText(ws[i], words[i])
  }

  predicate SpellsFixed(ws: seq<string>) {
    || Spells(ws, ["list"]) || Spells(ws, ["save-all"]) || Spells(ws, ["save-all", "flush"])
    || Spells(ws, ["whitelist", "list"]) || Spells(ws, ["stop"])
  }

  /** The text typed, of the words `ws`, is one of the allow-list. */
  predicate Listed(cmd: string, ws: seq<string>) {
    || SpellsFixed(ws)
    || (|ws| >= 1 && SameText(ws[0], "say") && exists i :: |ws[0]| <= i < |cmd| && Shows(cmd[i]))
    || (|ws| >= 2 && SameText(ws[0], "kick") && PlayerName(ws[1]))
    || (|ws| == 2 && (SameText(ws[0], "op") || SameText(ws[0], "deop")) && PlayerName(ws[1]))
    || (|ws| == 3 && SameText(ws[0], "whitelist") && (SameText(ws[1], "add") || SameText(ws[1], "remove"))
        && PlayerName(ws[2]))
  }

  lemma {:induction false} BlankedAt(s: string, i: nat)
    requires i < |s|
    ensures Blanked(s)[i] == if s[i] <= '\U{1f}' || s[i] == '\U{7f}' then ' ' else s[i]
    decreases i
  {
    if i > 0 {
      BlankedAt(s[1..], i - 1);
    }
  }

  /** Cleaning turns control characters into blanks, trims, and keeps the first 200. */
  lemma CleanIs(s: string)
    ensures var t := Strip(Blanked(s)); Clean(s) == if |t| <= 200 then t else t[..200]
  {
    hide Strip, Blanked;
  }

  lemma StripEmptyIff(s: string)
    ensures Strip(s) != [] <==> exists i :: 0 <= i < |s| && !IsSpace(s[i])
  {
    hide IsSpace;
    var l := StripLeft(s);
    if l != [] {
      assert s[|s| - |l|] == l[0];
    }
  }

  lemma CleanEmptyIff(s: string)
    ensures Clean(s) != [] <==> exists i :: 0 <= i < |s| && Shows(s[i])
  {
    CleanIs(s);
    StripEmptyIff(Blanked(s));
    assert IsSpace(' ');
    hide Clean, Strip, IsSpace;
    forall i | 0 <= i < |s| ensures !IsSpace(Blanked(s)[i]) <==> Shows(s[i]) {
      BlankedAt(s, i);
    }
  }

  lemma FixedIff(cmd: string)
    ensures IsFixed(JoinWords(Words(Lower(cmd)))) <==> SpellsFixed(Words(cmd))
  {
    FixedOne(cmd, "list", ["list"]);
    FixedOne(cmd, "save-all", ["save-all"]);
    FixedOne(cmd, "save-all flush", ["save-all", "flush"]);
    FixedOne(cmd, "whitelist list", ["whitelist", "list"]);
    FixedOne(cmd, "stop", ["stop"]);
    hide Words, Lower, JoinWords, Spells;
  }

  lemma FixedOne(cmd: string, text: string, words: seq<string>)
    requires IsFixed(text)
    requires words == if text == "save-all flush" then ["save-all", "flush"]
                      else if text == "whitelist list" then ["whitelist", "list"] else [text]
    ensures JoinWords(Words(Lower(cmd))) == text <==> Spells(Words(cmd), words)
  {
    hide Words, Lower, JoinWords, Spells;
    FixedWords(text);
    LowerSpells(cmd, words);
    WordsAreWords(Lower(cmd));
    WordsOfJoin(Words(Lower(cmd)));
  }

  lemma LowerSpells(cmd: string, words: seq<string>)
    requires forall w :: w in words ==> w == "list" || w == "save-all" || w == "flush" || w == "whitelist" || w == "stop"
    ensures Words(Lower(cmd)) == words <==> Spells(Words(cmd), words)
  {
    VerbsAreLower();
    WordsOfLower(cmd);
    hide Words, Lower, SameText;
    var ws := Words(cmd);
    if |ws| == |words| {
      forall i | 0 <= i < |ws| ensures Words(Lower(cmd))[i] == words[i] <==> SameText(ws[i], words[i]) {
        assert words[i] in words;
        SameTextIff(ws[i], words[i]);
      }
    }
  }

  lemma PlayerNameIff(p: string)
    ensures IsPlayer(p) <==> PlayerName(p)
  {
  }

  lemma VerbIff(w: string)
    ensures (Lower(w) == "say" <==> SameText(w, "say")) && (Lower(w) == "kick" <==> SameText(w, "kick"))
    ensures (Lower(w) == "op" <==> SameText(w, "op")) && (Lower(w) == "deop" <==> SameText(w, "deop"))
    ensures (Lower(w) == "whitelist" <==> SameText(w, "whitelist"))
    ensures (Lower(w) == "add" <==> SameText(w, "add")) && (Lower(w) == "remove" <==> SameText(w, "remove"))
  {
    VerbsAreLower();
    hide Lower, SameText;
    SameTextIff(w, "say");
    SameTextIff(w, "kick");
    SameTextIff(w, "op");
    SameTextIff(w, "deop");
    SameTextIff(w, "whitelist");
    SameTextIff(w, "add");
    SameTextIff(w, "remove");
  }

  lemma RecognisedIff(cmd: string, parts: seq<string>)
    requires parts == Words(cmd) && parts != [] && parts[0] <= cmd
    ensures Recognised(cmd, parts, JoinWords(Words(Lower(cmd)))).Accepted? <==> Listed(cmd, parts)
  {
    hide Words, Lower, JoinWords, Clean, Strip, IsFixed, SpellsFixed, SameText, IsPlayer, PlayerName, Shows;
    FixedIff(cmd);
    VerbIff(parts[0]);
    CleanEmptyIff(cmd[|parts[0]|..]);
    RestShows(cmd, |parts[0]|);
    if |parts| > 1 {
      VerbIff(parts[1]);
      PlayerNameIff(parts[1]);
    }
    if |parts| > 2 {
      PlayerNameIff(parts[2]);
    }
  }

  lemma RestShows(cmd: string, n: nat)
    requires n <= |cmd|
    ensures (exists i :: 0 <= i < |cmd[n..]| && Shows(cmd[n..][i])) <==> (exists i :: n <= i < |cmd| && Shows(cmd[i]))
  {
    hide Shows;
    assert forall i :: n <= i < |cmd| ==> cmd[i] == cmd[n..][i - n];
  }

  /** A text is accepted exactly when it is on the allow-list. */
  lemma AcceptedIff(raw: string)
    ensures Validate(raw).Accepted? <==> Strip(raw) != [] && Listed(Strip(raw), Words(Strip(raw)))
  {
    if Strip(raw) != [] {
      SomeWord(raw);
      hide Recognised, Listed, Words, Lower, JoinWords, Strip;
      RecognisedIff(Strip(raw), Words(Strip(raw)));
    }
  }

  // ----- Second pass ---------------------------------------------------------------------

  lemma WordsTwo(a: string, b: string)
    requires IsWord(a) && IsWord(b)
    ensures Words(a + " " + b) == [a, b]
  {
    WordsCons(b, "");
    WordsCons(a, b);
    hide Words, IsWord;
    assert [a] + [b] == [a, b];
  }

  lemma WordsThree(a: string, b: string, rest: string)
    requires IsWord(a) && IsWord(b)
    ensures Words(a + " " + b + " " + rest) == [a, b] + Words(rest)
  {
    hide Words, IsWord;
    WordsCons(b, rest);
    WordsCons(a, b + " " + rest);
    assert a + " " + (b + " " + rest) == a + " " + b + " " + rest;
    assert [a] + ([b] + Words(rest)) == [a, b] + Words(rest);
  }

  function AllWords(c: Command): seq<string> {
    match c
    case Fixed(text) => Words(text)
    case Say(message) => ["say"] + Words(message)
    case Kick(player, reason) => ["kick", player] + Words(reason)
    case Grant(verb, player) => [verb, player]
    case Whitelist(action, player) => ["whitelist", action, player]
  }

  lemma WordsOfRender(c: Command)
    requires WellFormed(c)
    ensures Words(Render(c)) == AllWords(c)
  {
    Verbs();
    hide Words, IsWord, IsText, Trimmed, IsFixed, IsPlayer;
    match c
    case Fixed(_) =>
    case Say(message) =>
      WordsCons("say", message);
      assert "say" + " " + message == "say " + message;
    case Kick(player, reason) =>
      PlayerIsWord(player);
      assert "kick" + " " + player == "kick " + player;
      WordsTwo("kick", player);
      WordsThree("kick", player, reason);
      NoWords();
    case Grant(verb, player) =>
      PlayerIsWord(player);
      WordsTwo(verb, player);
    case Whitelist(action, player) =>
      PlayerIsWord(player);
      WordsThree("whitelist", action, player);
      WordsCons(player, "");
      assert "whitelist" + " " + action + " " + player == "whitelist " + action + " " + player;
      assert ["whitelist", action] + [player] == ["whitelist", action, player];
  }

  lemma NotFixed(cmd: string)
    requires var ws := Words(cmd);
             |ws| == 3 || (|ws| > 0 && (ws[0] == "say" || ws[0] == "kick" || ws[0] == "op" || ws[0] == "deop"))
    ensures !IsFixed(JoinWords(Words(Lower(cmd))))
  {
    VerbsAreLower();
    hide Words, JoinWords, Lower, IsFixed;
    if IsFixed(JoinWords(Words(Lower(cmd)))) {
      FixedOnly(cmd);
    }
  }

  lemma AgainFixed(s: string)
    requires IsFixed(s)
    ensures JoinWords(Words(Lower(s))) == s
  {
    FixedWords(s);
    VerbsAreLower();
    WordsOfLower(s);
    hide Words, JoinWords, Lower, IsFixed;
    assert Words(Lower(s)) == Words(s);
  }

  lemma RejoinIsText(s: string)
    requires IsText(s)
    ensures var j := JoinWords(Words(s));
            IsText(j) && Trimmed(j) && Words(j) == Words(s) && JoinWords(Words(j)) == j
  {
    hide IsSpace, Words, JoinWords;
    WordsAreWords(s);
    JoinIsTrimmed(Words(s));
    RejoinShrinks(s);
    WordsOfJoin(Words(s));
  }

  lemma PlainJoin(a: string, b: string)
    requires Plain(a) && Plain(b)
    ensures Plain(a + b)
  {
  }

  lemma PlainVerbs()
    ensures Plain("say ") && Plain("kick ") && Plain(" ") && Plain("op") && Plain("deop")
    ensures Plain("whitelist ") && Plain("add") && Plain("remove")
  {
  }

  /** Nothing that is sent holds a control character or more than 222 characters. */
  lemma RenderFits(c: Command)
    requires WellFormed(c)
    ensures Plain(Render(c)) && 0 < |Render(c)| <= 222
  {
    PlainVerbs();
    hide Plain, Trimmed, IsFixed, IsSpace;
    match c
    case Fixed(text) => FixedIsText(text);
    case Say(message) => PlainJoin("say ", message);
    case Kick(player, reason) =>
      PlayerIsWord(player);
      PlainJoin("kick ", player);
      PlainJoin("kick " + player, " ");
      PlainJoin("kick " + player + " ", reason);
    case Grant(verb, player) =>
      PlayerIsWord(player);
      PlainJoin(verb, " ");
      PlainJoin(verb + " ", player);
    case Whitelist(action, player) =>
      PlayerIsWord(player);
      PlainJoin("whitelist ", action);
      PlainJoin("whitelist " + action, " ");
      PlainJoin("whitelist " + action + " ", player);
  }

  lemma TrimmedEnds(head: string, tail: string)
    requires head != [] && tail != [] && !IsSpace(head[0]) && !IsSpace(tail[|tail| - 1])
    ensures Trimmed(head + tail)
  {
    var s := head + tail;
    assert s[0] == head[0] && s[|s| - 1] == tail[|tail| - 1];
  }

  lemma RenderIsTrimmed(c: Command)
    requires WellFormed(c) && (c.Say? ==> Trimmed(c.message))
    ensures Trimmed(Render(c)) && Render(c) != []
  {
    Verbs();
    match c
    case Fixed(text) => FixedIsText(text);
    case Say(message) => TrimmedEnds("say ", message);
    case Kick(player, reason) =>
      PlayerIsWord(player);
      TrimmedEnds("kick ", player);
      if reason != [] {
        TrimmedEnds("kick " + player + " ", reason);
      }
    case Grant(verb, player) =>
      PlayerIsWord(player);
      TrimmedEnds(verb + " ", player);
    case Whitelist(action, player) =>
      PlayerIsWord(player);
      TrimmedEnds("whitelist " + action + " ", player);
  }

  lemma SettledIsSettled(c: Command)
    requires WellFormed(c)
    ensures WellFormed(Settled(c)) && Settled(Settled(c)) == Settled(c)
    ensures AllWords(Settled(c)) == AllWords(c)
  {
    hide Words, JoinWords, IsText, IsPlayer, IsSpace, IsFixed;
    match c
    case Say(message) =>
      StripRightOfText(message);
      WordsOfStripRight(message);
      Visible(StripRight(message));
    case Kick(_, reason) => RejoinIsText(reason);
    case _ =>
  }

  lemma SayRecognised(cmd: string, parts: seq<string>, lowered: string, message: string)
    requires parts != [] && parts[0] <= cmd && parts[0] == "say" && !IsFixed(lowered)
    requires Clean(cmd[3..]) == message && message != []
    ensures Recognised(cmd, parts, lowered) == Accepted("say " + message)
  {
    VerbsAreLower();
    hide Lower, Clean, IsFixed;
    assert |parts[0]| == 3;
  }

  lemma SayRest(message: string)
    ensures ("say " + message)[3..] == " " + message
  {
  }

  lemma SayAgain(message: string, parts: seq<string>)
    requires message != [] && IsText(message) && Trimmed(message)
    requires parts != [] && parts[0] == "say" && parts[0] <= "say " + message && parts == Words("say " + message)
    ensures var cmd := "say " + message;
            Recognised(cmd, parts, JoinWords(Words(Lower(cmd)))) == Accepted(cmd)
  {
    var cmd := "say " + message;
    CleanKeeps(message);
    SayRest(message);
    NotFixed(cmd);
    hide Words, JoinWords, Lower, Clean, IsFixed, IsText, Trimmed, Recognised;
    SayRecognised(cmd, parts, JoinWords(Words(Lower(cmd))), message);
  }

  lemma KickRecognised(cmd: string, parts: seq<string>, lowered: string, reason: string)
    requires |parts| >= 2 && parts[0] <= cmd && parts[0] == "kick" && IsPlayer(parts[1]) && !IsFixed(lowered)
    requires Clean(JoinWords(parts[2..])) == reason && StripRight(reason) == reason
    ensures Recognised(cmd, parts, lowered) == Accepted(Render(Kick(parts[1], reason)))
  {
    VerbsAreLower();
    KickStrips(parts[1], reason);
    hide Lower, Clean, IsFixed, IsPlayer, JoinWords, Strip, Render;
  }

  lemma KickAgain(cmd: string, parts: seq<string>, player: string, words: seq<string>)
    requires |parts| >= 2 && parts[0] <= cmd && parts == Words(cmd)
    requires parts[0] == "kick" && parts[1] == player && parts[2..] == words && IsPlayer(player)
    requires IsText(JoinWords(words)) && Trimmed(JoinWords(words))
    ensures Recognised(cmd, parts, JoinWords(Words(Lower(cmd)))) == Accepted(Render(Kick(player, JoinWords(words))))
  {
    hide *;
    CleanKeeps(JoinWords(words));
    Visible(JoinWords(words));
    NotFixed(cmd);
    KickRecognised(cmd, parts, JoinWords(Words(Lower(cmd))), JoinWords(words));
  }

  lemma RecognisedAgain(c: Command)
    requires WellFormed(c) && (c.Say? ==> Trimmed(c.message))
    requires var parts := AllWords(c); parts != [] && parts[0] <= Render(c) && parts == Words(Render(c))
    ensures Recognised(Render(c), AllWords(c), JoinWords(Words(Lower(Render(c))))) == Accepted(Render(Settled(c)))
  {
    VerbsAreLower();
    var cmd := Render(c);
    match c
    case Fixed(text) =>
      AgainFixed(text);
    case Say(message) =>
      hide Words, JoinWords, Lower, IsFixed, IsText, Recognised, StripRight;
      SayAgain(message, AllWords(c));
      Visible(message);
    case Kick(player, reason) =>
      RejoinIsText(reason);
      hide Words, JoinWords, Lower, IsFixed, IsText, Recognised, Trimmed, IsPlayer, Render;
      assert AllWords(c)[2..] == Words(reason);
      KickAgain(cmd, AllWords(c), player, Words(reason));
    case Grant(verb, player) =>
      hide Words, JoinWords, Lower, IsFixed;
      NotFixed(cmd);
    case Whitelist(action, player) =>
      hide Words, JoinWords, Lower, IsFixed;
      NotFixed(cmd);
  }

  lemma StripRender(c: Command)
    requires WellFormed(c)
    ensures Strip(Render(c)) == if c.Say? then Render(Settled(c)) else Render(c)
  {
    hide Words, JoinWords;
    if c.Say? {
      hide Strip, StripRight;
      StripSay(c.message);
    } else {
      RenderIsTrimmed(c);
      StripOfTrimmed(Render(c));
    }
  }

  lemma SayJoined(message: string)
    ensures "say" + " " + message == "say " + message
  {
  }

  lemma StripSay(message: string)
    requires message != [] && IsText(message)
    ensures Strip("say " + message) == "say " + StripRight(message)
  {
    assert Trimmed("say");
    hide Strip, StripRight, IsText, Trimmed;
    StripRightOfText(message);
    StripAfter("say", message);
    SayJoined(message);
    SayJoined(StripRight(message));
  }

  /** A second pass settles a command: same words, and nothing moves after that. */
  lemma SecondPass(c: Command)
    requires WellFormed(c)
    ensures Validate(Render(c)) == Accepted(Render(Settled(c)))
  {
    hide Recognised, Words, JoinWords, Lower, Strip, Trimmed, WellFormed, Settled, Render, AllWords;
    StripRender(c);
    SettledIsSettled(c);
    var once := if c.Say? then Settled(c) else c;
    OnceIsTrimmed(c, once);
    RenderIsTrimmed(once);
    SomeWord(Render(c));
    WordsOfRender(once);
    RecognisedAgain(once);
  }

  lemma OnceIsTrimmed(c: Command, once: Command)
    requires WellFormed(c) && once == if c.Say? then Settled(c) else c
    ensures once.Say? ==> Trimmed(once.message)
  {
    if c.Say? {
      StripRightOfText(c.message);
    }
  }

  // ----- The theorems --------------------------------------------------------------------

  /** What is accepted is control-free and at most 222 characters long. */
  lemma AcceptedIsSafe(raw: string)
    requires Validate(raw).Accepted?
    ensures forall c :: c in Validate(raw).command ==> c > '\U{1f}' && c != '\U{7f}'
    ensures Plain(Validate(raw).command) && 0 < |Validate(raw).command| <= 222
  {
    hide Validate;
    var c := AcceptedForm(raw);
    RenderFits(c);
  }

  /** What is accepted is accepted again, word for word; from the second pass on the text
      no longer changes. */
  lemma AcceptedAgain(raw: string)
    requires Validate(raw).Accepted?
    ensures var once := Validate(raw).command;
            && Validate(once).Accepted?
            && var twice := Validate(once).command;
               Words(twice) == Words(once) && Validate(twice) == Accepted(twice)
  {
    hide Validate, Words, WellFormed, Render, Settled, AllWords;
    var c := AcceptedForm(raw);
    SecondPass(c);
    SettledIsSettled(c);
    WordsOfRender(c);
    WordsOfRender(Settled(c));
    SecondPass(Settled(c));
  }

  /** The first pass is already stable exactly when a message carries no trailing blank and
      a reason no double one. */
  lemma RenderStableIff(c: Command)
    requires WellFormed(c)
    ensures Validate(Render(c)) == Accepted(Render(c)) <==>
            match c
            case Say(message) => Trimmed(message)
            case Kick(_, reason) => JoinWords(Words(reason)) == reason
            case _ => true
  {
    hide Validate, Words, JoinWords, IsText, IsPlayer, IsFixed;
    SecondPass(c);
    match c
    case Say(message) =>
      Visible(message);
      OnceIsTrimmed(c, Settled(c));
      assert Render(c)[4..] == message && Render(Settled(c))[4..] == StripRight(message);
    case Kick(player, reason) =>
      SameReason(player, reason, JoinWords(Words(reason)));
    case _ =>
  }

  lemma SameReason(player: string, a: string, b: string)
    ensures Render(Kick(player, a)) == Render(Kick(player, b)) <==> a == b
  {
    var n := |"kick " + player|;
    assert a != [] ==> Render(Kick(player, a))[n + 1..] == a;
    assert b != [] ==> Render(Kick(player, b))[n + 1..] == b;
  }

  // ----- Stability, told from the typed text ---------------------------------------------

  /** What was typed after the verb `say`, cleaned but not yet cut. */
  function TypedMessage(raw: string): string {
    var cmd := Strip(raw);
    if Words(cmd) != [] && Words(cmd)[0] <= cmd then Strip(Blanked(cmd[|Words(cmd)[0]|..])) else []
  }

  /** What was typed after a kick's player, its words one blank apart, cleaned but not yet cut. */
  function TypedReason(raw: string): string {
    var parts := Words(Strip(raw));
    if |parts| > 2 then Strip(Blanked(JoinWords(parts[2..]))) else []
  }

  predicate SingleBlanks(s: string) {
    forall i :: 0 <= i < |s| - 1 ==> !(s[i] == ' ' && s[i + 1] == ' ')
  }

  /** A message that is not cut at a blank; a reason without two blanks, or control characters,
      in a row within what is kept of it. */
  predicate StableText(raw: string) {
    var parts := Words(Strip(raw));
    if parts == [] then true
    else if Lower(parts[0]) == "say" then
      |TypedMessage(raw)| <= 200 || !IsSpace(TypedMessage(raw)[199])
    else if Lower(parts[0]) == "kick" then SingleBlanks(StripRight(Take(TypedReason(raw))))
    else true
  }

  lemma {:induction false} JoinHasSingleBlanks(ws: seq<string>)
    requires forall w :: w in ws ==> IsWord(w)
    ensures SingleBlanks(JoinWords(ws))
    ensures forall c :: c in JoinWords(ws) && IsSpace(c) ==> c == ' '
    decreases |ws|
  {
    if ws != [] {
      assert ws[0] in ws;
      var rest := JoinWords(ws[1..]);
      assert !IsSpace(ws[0][|ws[0]| - 1]) && (forall i :: 0 <= i < |ws[0]| ==> ws[0][i] != ' ') by {
        BlankIsSpace();
      }
      JoinHasSingleBlanks(ws[1..]);
      JoinIsTrimmed(ws[1..]);
      hide IsSpace, IsWord;
      if |ws| > 1 {
        assert ws[1..] != [] && rest != [] && rest[0] != ' ' by {
          BlankNotFirst(rest);
        }
        SingleBlanksJoin(ws[0], rest);
        WordChars(ws[0]);
      } else {
        WordChars(ws[0]);
      }
    }
  }

  lemma BlankIsSpace()
    ensures IsSpace(' ')
  {
  }

  lemma BlankNotFirst(s: string)
    requires Trimmed(s) && s != []
    ensures s[0] != ' '
  {
  }

  lemma WordChars(w: string)
    requires IsWord(w)
    ensures forall c :: c in w ==> !IsSpace(c)
  {
  }

  lemma SingleBlanksJoin(w: string, rest: string)
    requires w != [] && (forall i :: 0 <= i < |w| ==> w[i] != ' ')
    requires SingleBlanks(rest) && rest != [] && rest[0] != ' '
    ensures SingleBlanks(w + " " + rest)
  {
    var s := w + " " + rest;
    forall i | 0 <= i < |s| - 1 ensures !(s[i] == ' ' && s[i + 1] == ' ') {
      if i > |w| {
        assert s[i] == rest[i - |w| - 1] && s[i + 1] == rest[i - |w|];
      }
    }
  }

  /** Splitting and rejoining gives a trimmed text back exactly when no two blanks in it touch. */
  lemma {:induction false} RejoinIff(r: string)
    requires Trimmed(r) && forall c :: c in r && IsSpace(c) ==> c == ' '
    ensures JoinWords(Words(r)) == r <==> SingleBlanks(r)
  {
    WordsAreWords(r);
    JoinHasSingleBlanks(Words(r));
    if SingleBlanks(r) {
      assert OnlyBlanks(r);
      RejoinSame(r);
    }
  }

  predicate OnlyBlanks(s: string) {
    forall i :: 0 <= i < |s| && IsSpace(s[i]) ==> s[i] == ' '
  }

  lemma {:induction false} RejoinSame(r: string)
    requires Trimmed(r) && SingleBlanks(r) && OnlyBlanks(r)
    ensures JoinWords(Words(r)) == r
    decreases |r|
  {
    if r == [] {
      NoWords();
    } else if WordEnd(r) == |r| {
      assert r[..|r|] == r && IsWord(r);
      WordsCons(r, "");
    } else {
      var n := WordEnd(r);
      var w, rest := r[..n], r[n + 1..];
      AfterFirstWord(r);
      hide IsSpace, Words, WordEnd, IsWord, Trimmed, SingleBlanks, OnlyBlanks;
      RejoinSame(rest);
      WordsCons(w, rest);
      JoinCons(w, Words(rest), rest);
    }
  }

  lemma AfterFirstWord(r: string)
    requires Trimmed(r) && SingleBlanks(r) && OnlyBlanks(r) && r != [] && WordEnd(r) < |r|
    ensures var n := WordEnd(r);
            && IsWord(r[..n]) && r == r[..n] + " " + r[n + 1..] && r[n + 1..] != [] && Trimmed(r[n + 1..])
            && SingleBlanks(r[n + 1..]) && OnlyBlanks(r[n + 1..])
  {
    var n := WordEnd(r);
    BlankFollows(r);
    hide WordEnd, IsSpace, IsWord, Trimmed, SingleBlanks, OnlyBlanks;
    RestIsFine(r, n + 1);
    SplitAtBlank(r, n);
  }

  lemma SplitAtBlank(r: string, n: nat)
    requires n < |r| && r[n] == ' '
    ensures r == r[..n] + " " + r[n + 1..]
  {
  }

  lemma BlankFollows(r: string)
    requires Trimmed(r) && SingleBlanks(r) && OnlyBlanks(r) && r != [] && WordEnd(r) < |r|
    ensures var n := WordEnd(r);
            && 0 < n && n + 1 < |r| && r[n] == ' ' && !IsSpace(r[n + 1]) && IsWord(r[..n])
  {
    hide IsSpace;
    var n := WordEnd(r);
    assert r[n] == ' ' && !IsSpace(r[|r| - 1]);
    assert r[n + 1] != ' ';
  }

  lemma RestIsFine(r: string, m: nat)
    requires Trimmed(r) && SingleBlanks(r) && OnlyBlanks(r) && m < |r| && !IsSpace(r[m])
    ensures Trimmed(r[m..]) && SingleBlanks(r[m..]) && OnlyBlanks(r[m..])
  {
    hide IsSpace;
    var rest := r[m..];
    assert forall i :: 0 <= i < |rest| ==> rest[i] == r[m + i];
  }

  lemma JoinCons(w: string, ws: seq<string>, rest: string)
    requires JoinWords(ws) == rest && rest != []
    ensures JoinWords([w] + ws) == w + " " + rest
  {
    assert ws != [];
    assert ([w] + ws)[1..] == ws;
  }

  lemma {:induction false} BlankedChars(s: string)
    requires forall c :: c in s && IsSpace(c) ==> c == ' '
    ensures forall c :: c in Blanked(s) && IsSpace(c) ==> c == ' '
    decreases |s|
  {
    if s != [] {
      assert s[0] in s && forall c :: c in s[1..] ==> c in s;
      BlankedChars(s[1..]);
    }
  }

  lemma CutMessage(t: string)
    requires Trimmed(t)
    ensures Trimmed(Take(t)) <==> |t| <= 200 || !IsSpace(t[199])
  {
  }

  lemma ReasonBlanks(parts: seq<string>, text: string)
    requires (forall w :: w in parts ==> IsWord(w)) && text == Strip(Blanked(JoinWords(parts)))
    ensures forall c :: c in StripRight(Take(text)) && IsSpace(c) ==> c == ' '
  {
    hide IsSpace;
    JoinHasSingleBlanks(parts);
    BlankedChars(JoinWords(parts));
    StripWithin(Blanked(JoinWords(parts)));
    assert forall c :: c in StripRight(Take(text)) ==> c in text;
  }

  /** Whether one pass suffices can be told from the typed text. */
  lemma StableIff(raw: string)
    requires Validate(raw).Accepted?
    ensures Validate(Validate(raw).command) == Validate(raw) <==> StableText(raw)
  {
    var c := AcceptedForm(raw);
    RenderStableIff(c);
    SomeWord(raw);
    WordsAreWords(Strip(raw));
    VerbsAreLower();
    hide Validate, Words, Strip, JoinWords, Lower, IsWord, IsFixed, IsText, IsPlayer, Trimmed, StableText, Render;
    match c
    case Fixed(_) => StableOther(raw, c);
    case Say(message) => StableSay(raw, message);
    case Kick(player, reason) => StableKick(raw, reason);
    case _ => StableOther(raw, c);
  }

  lemma StableOther(raw: string, c: Command)
    requires WellFormed(c) && !c.Say? && !c.Kick?
    requires Means(Strip(raw), Words(Strip(raw)), JoinWords(Words(Lower(Strip(raw)))), c)
    ensures StableText(raw)
  {
    VerbsAreLower();
    hide Words, Strip, JoinWords, Lower;
    if c.Fixed? {
      FixedIsNoText(Strip(raw));
    }
  }

  lemma StableSay(raw: string, message: string)
    requires var cmd, parts := Strip(raw), Words(Strip(raw));
             |parts| > 0 && parts[0] <= cmd && Lower(parts[0]) == "say" && message == Clean(cmd[|parts[0]|..])
    ensures Trimmed(message) <==> StableText(raw)
  {
    hide Words, Strip, Lower, Trimmed, IsSpace, Blanked;
    var cmd, parts := Strip(raw), Words(Strip(raw));
    StripIsTrimmed(Blanked(cmd[|parts[0]|..]));
    CutMessage(TypedMessage(raw));
  }

  lemma FixedIsNoText(cmd: string)
    requires IsFixed(JoinWords(Words(Lower(cmd))))
    ensures Words(cmd) != [] && Lower(Words(cmd)[0]) != "say" && Lower(Words(cmd)[0]) != "kick"
  {
    FixedOnly(cmd);
  }

  lemma StableKick(raw: string, reason: string)
    requires var parts := Words(Strip(raw));
             && |parts| > 1 && Lower(parts[0]) == "kick" && (forall w :: w in parts ==> IsWord(w))
             && reason == StripRight(Clean(JoinWords(parts[2..]))) && Trimmed(reason)
    ensures JoinWords(Words(reason)) == reason <==> StableText(raw)
  {
    VerbsAreLower();
    var parts := Words(Strip(raw));
    hide Words, Lower, IsWord, IsSpace, Trimmed, SingleBlanks, StripLeft;
    if |parts| == 2 {
      NoReason(parts[2..]);
    }
    assert reason == StripRight(Take(TypedReason(raw)));
    assert forall w :: w in parts[2..] ==> w in parts;
    ReasonBlanks(parts[2..], Strip(Blanked(JoinWords(parts[2..]))));
    RejoinIff(reason);
  }

  lemma NoReason(parts: seq<string>)
    requires parts == []
    ensures Strip(Blanked(JoinWords(parts))) == []
  {
  }

  /** A message cut at a blank: the first pass leaves the blank at its end, the second none. */
  lemma CutMessageMoves(body: string)
    requires IsText(body) && Trimmed(body) && |body| == 199
    ensures Validate("say " + body + " b") == Accepted("say " + body + " ")
    ensures Validate("say " + body + " ") == Accepted("say " + body)
  {
    hide Validate;
    CutMessageFirst(body);
    CutMessageText(body);
    var message := body + " ";
    assert "say " + message == "say " + body + " ";
    SecondPass(Say(message));
  }

  lemma CutMessageText(body: string)
    requires IsText(body) && Trimmed(body) && |body| == 199
    ensures IsText(body + " ") && StripRight(body + " ") == body
  {
    var message := body + " ";
    assert message[..|message| - 1] == body;
    assert forall c :: c in message ==> c == ' ' || c in body;
    assert message[0] == body[0];
    Visible(body);
  }

  lemma CutMessageTyped(body: string)
    requires IsText(body) && Trimmed(body) && body != []
    ensures Trimmed(body + " b") && Plain(body + " b")
  {
    var text := body + " b";
    assert text[0] == body[0] && text[|text| - 1] == 'b';
    assert forall c :: c in text ==> c == ' ' || c == 'b' || c in body;
  }

  lemma CutMessageTaken(body: string)
    requires |body| == 199
    ensures Take(body + " b") == body + " "
  {
  }

  lemma CutMessageClean(body: string)
    requires IsText(body) && Trimmed(body) && |body| == 199
    ensures Trimmed(body + " b") && Clean(" " + (body + " b")) == body + " "
  {
    hide IsSpace, IsControl, Plain, Trimmed, Strip, Take;
    var text := body + " b";
    CutMessageTyped(body);
    PlainBlank(text);
    BlankedKeepsPlain(" " + text);
    StripAfterBlank(text);
    CutMessageTaken(body);
  }

  lemma CutMessageRaw(body: string)
    requires IsText(body) && Trimmed(body) && |body| == 199
    ensures var raw := "say " + (body + " b");
            && Strip(raw) == raw && raw != [] && Words(raw) == ["say"] + Words(body + " b") && "say" <= raw
  {
    var text := body + " b";
    CutMessageClean(body);
    Verbs();
    TrimmedEnds("say ", text);
    StripOfTrimmed("say " + text);
    SayJoined(text);
    WordsCons("say", text);
  }

  lemma CutMessageFirst(body: string)
    requires IsText(body) && Trimmed(body) && |body| == 199
    ensures Validate("say " + body + " b") == Accepted("say " + body + " ")
  {
    var text, kept := body + " b", body + " ";
    var raw := "say " + text;
    CutMessageNames(body);
    CutMessageClean(body);
    CutMessageRaw(body);
    SayRest(text);
    hide Words, JoinWords, Lower, Clean, IsFixed, IsText, Trimmed, Recognised, Strip, IsSpace, IsWord;
    NotFixed(raw);
    SayRecognised(raw, Words(raw), JoinWords(Words(Lower(raw))), kept);
  }

  lemma CutMessageNames(body: string)
    ensures "say " + (body + " b") == "say " + body + " b"
    ensures "say " + (body + " ") == "say " + body + " "
  {
  }

  const ODD := "a\U{1}\U{1}b"

  /** Two control characters in a reason: the first pass leaves two blanks, the second one. */
  lemma FirstPassCanMove(player: string)
    requires IsPlayer(player)
    ensures Validate(OddKick(player)) == Accepted(Render(Kick(player, "a  b")))
    ensures Validate(Render(Kick(player, "a  b"))) == Accepted(Render(Kick(player, "a b")))
  {
    hide Validate, Words, JoinWords, IsText, Trimmed, Render, IsPlayer, Clean;
    OddReason();
    OddFirst(player);
    SecondPass(Kick(player, "a  b"));
  }

  function OddKick(player: string): string {
    "kick" + " " + player + " " + ODD
  }

  lemma OddReason()
    ensures IsText("a  b") && Trimmed("a  b") && JoinWords(Words("a  b")) == "a b"
  {
    hide *;
    OddText();
    WordsCons("a", " b");
    assert "a" + " " + " b" == "a  b";
    OddGap();
    assert ["a"] + ["b"] == ["a", "b"];
    JoinTwo("a", "b");
    assert "a" + " " + "b" == "a b";
  }

  lemma OddText()
    ensures IsText("a  b") && Trimmed("a  b") && IsWord("a") && IsWord("b")
  {
  }

  lemma OddGap()
    ensures Words(" b") == ["b"]
  {
    assert IsWord("b") && IsSpace(' ');
    hide IsSpace, IsWord;
    WordsCons("b", "");
    assert " b"[1..] == "b" && " b"[0] == ' ';
  }

  lemma OddClean()
    ensures Clean(ODD) == "a  b" && IsWord(ODD)
  {
    OddBlanked();
    OddReason();
    hide IsSpace, Blanked;
    StripOfTrimmed("a  b");
    assert IsWord(ODD) by {
      OddWord();
    }
  }

  lemma OddWord()
    ensures IsWord(ODD)
  {
  }

  lemma BlankedCons(c: char, s: string)
    ensures Blanked([c] + s) == [if IsControl(c) then ' ' else c] + Blanked(s)
  {
    assert ([c] + s)[1..] == s;
  }

  lemma OddBlanked()
    ensures Blanked(ODD) == "a  b"
  {
    BlankedCons('b', "");
    BlankedCons('\U{1}', "b");
    BlankedCons('\U{1}', "\U{1}b");
    BlankedCons('a', "\U{1}\U{1}b");
    hide Blanked;
    assert ['a'] + "\U{1}\U{1}b" == ODD;
    assert ['\U{1}'] + "\U{1}b" == "\U{1}\U{1}b" && ['\U{1}'] + "b" == "\U{1}b";
    assert ['b'] + "" == "b" && [' '] + "b" == " b" && [' '] + " b" == "  b" && ['a'] + "  b" == "a  b";
  }

  lemma OddFirst(player: string)
    requires IsPlayer(player)
    ensures Validate(OddKick(player)) == Accepted(Render(Kick(player, "a  b")))
  {
    var raw := OddKick(player);
    OddClean();
    OddWords(player);
    hide Words, JoinWords, Lower, IsText, Trimmed, Strip, Clean, IsFixed, IsPlayer, Render, Recognised, OddKick;
    var parts := Words(raw);
    NotFixed(raw);
    assert parts[2..] == [ODD];
    JoinTwo(ODD, ODD);
    Visible("a  b");
    SomeWord(raw);
    OddReason();
    KickRecognised(raw, parts, JoinWords(Words(Lower(raw))), "a  b");
  }

  lemma OddWords(player: string)
    requires IsPlayer(player)
    ensures Words(OddKick(player)) == ["kick", player, ODD] && Strip(OddKick(player)) == OddKick(player) != []
  {
    Verbs();
    OddClean();
    PlayerIsWord(player);
    TrimmedEnds("kick" + " " + player + " ", ODD);
    StripOfTrimmed(OddKick(player));
    hide Words, IsWord, IsPlayer, Strip, IsSpace;
    WordsThree("kick", player, ODD);
    WordsCons(ODD, "");
    assert ["kick", player] + [ODD] == ["kick", player, ODD];
  }
}
