/**
 * Allowlist for user supplied borg flags (agent/borg_ui_agent/borg_flags.py). Splitting a stored
 * text into words the way a shell does is not modelled: a text stands here for the words it splits
 * into, or for the failure to split it.
 */
module BorgFlags {
  import opened Wrappers

  /** An element of the list handed in; nothing forces it to be a string. */
  datatype Token = Str(text: string) | NotStr

  datatype Flags = Absent | Text(words: Option<seq<string>>) | Listing(tokens: seq<Token>)

  /** The reasons a ValueError is raised with; `NotAString` is the AttributeError that a value
      which is no string raises instead. */
  datatype FlagError =
    | UnsupportedCommand
    | InvalidText
    | InvalidFlag
    | Positional
    | NotAllowed
    | OtherMajor
    | TakesNoValue
    | RequiresValue
    | InvalidValue
    | NotAString

  /** Option name to whether it takes a value. */
  type Table = map<string, bool>

  predicate Control(c: char) {
    c as int < 32 || c as int == 127
  }

  predicate HasControlChars(s: string) {
    exists i :: 0 <= i < |s| && Control(s[i])
  }

  predicate Dashed(s: string) {
    |s| > 0 && s[0] == '-'
  }

  predicate Long(s: string) {
    |s| > 1 && s[0] == '-' && s[1] == '-'
  }

  /** What every name of the tables looks like. */
  predicate OptionName(name: string) {
    && |name| >= 2 && Dashed(name) && (!Long(name) ==> |name| == 2)
    && forall i :: 0 <= i < |name| ==> !Control(name[i]) && name[i] != '='
  }

  predicate WellFormed(allowed: Table) {
    forall name :: name in allowed ==> OptionName(name)
  }

  // ---- Reading

  function Letters(token: string): seq<string>
    requires |token| > 0
  {
    seq(|token| - 1, i requires 0 <= i < |token| - 1 => ['-', token[i + 1]])
  }

  function ExpandShortFlags(token: string, allowed: Table): seq<string> {
    if !Dashed(token) || Long(token) || |token| <= 2 then [token]
    else if forall flag :: flag in Letters(token) ==> flag in allowed && !allowed[flag] then Letters(token)
    else [token]
  }

  function Strs(words: seq<string>): (tokens: seq<Token>)
    ensures |tokens| == |words| && forall i :: 0 <= i < |words| ==> tokens[i] == Str(words[i])
  {
    seq(|words|, i requires 0 <= i < |words| => Str(words[i]))
  }

  function Expanded(token: Token, allowed: Table): seq<Token> {
    if token.Str? then Strs(ExpandShortFlags(token.text, allowed)) else [token]
  }

  function Expand(tokens: seq<Token>, allowed: Table): seq<Token> {
    if tokens == [] then []
    else Expanded(tokens[0], allowed) + Expand(tokens[1..], allowed)
  }

  /** Where the first `=` stands, or the length. */
  function Cut(token: string): (n: nat)
    ensures n <= |token|
    ensures forall i :: 0 <= i < n ==> token[i] != '='
    ensures n < |token| ==> token[n] == '='
  {
    if token == "" || token[0] == '=' then 0 else 1 + Cut(token[1..])
  }

  /** An option as borg is to understand it. */
  datatype Setting = Setting(name: string, value: Option<string>)

  datatype Reading = Reading(setting: Setting, words: nat)

  predicate ValueFits(name: string, value: string) {
    value != "" && !HasControlChars(value) && (!Long(name) ==> !Dashed(value))
  }

  /** One option off the front of the words, with the reason when there is none. */
  function ReadOne(words: seq<Token>, allowed: Table, otherOnly: set<string>): (one: Result<Reading, FlagError>)
    requires words != []
    ensures one.Success? ==> 1 <= one.value.words <= |words|
  {
    if words[0].NotStr? || HasControlChars(words[0].text) then Failure(InvalidFlag)
    else if !Dashed(words[0].text) then Failure(Positional)
    else
      var token := words[0].text;
      var cut := Cut(token);
      var name := token[..cut];
      if name !in allowed then Failure(NotAllowed)
      else if name in otherOnly then Failure(OtherMajor)
      else if !allowed[name] then
        if cut < |token| then Failure(TakesNoValue) else Success(Reading(Setting(name, None), 1))
      else if cut < |token| then ReadValue(name, token[cut + 1..], 1)
      else if |words| == 1 then Failure(RequiresValue)
      else if words[1].NotStr? then Failure(NotAString)
      else if Dashed(words[1].text) then Failure(RequiresValue)
      else if HasControlChars(words[1].text) then Failure(InvalidValue)
      else ReadValue(name, words[1].text, 2)
  }

  function ReadValue(name: string, value: string, words: nat): Result<Reading, FlagError> {
    if value == "" then Failure(RequiresValue)
    else if !Long(name) && Dashed(value) then Failure(InvalidValue)
    else Success(Reading(Setting(name, Some(value)), words))
  }

  function ReadAll(words: seq<Token>, allowed: Table, otherOnly: set<string>): Result<seq<Setting>, FlagError>
    decreases |words|
  {
    if words == [] then Success([])
    else match ReadOne(words, allowed, otherOnly)
      case Failure(e) => Failure(e)
      case Success(one) =>
        match ReadAll(words[one.words..], allowed, otherOnly)
          case Failure(e) => Failure(e)
          case Success(rest) => Success([one.setting] + rest)
  }

  // ---- The grammar the reader accepts, said without reading

  /** The setting is one this command and major take. */
  predicate Fits(setting: Setting, allowed: Table, otherOnly: set<string>) {
    && setting.name in allowed && setting.name !in otherOnly
    && (setting.value.Some? <==> allowed[setting.name])
    && (setting.value.Some? ==> ValueFits(setting.name, setting.value.value))
  }

  predicate AllFit(settings: seq<Setting>, allowed: Table, otherOnly: set<string>) {
    forall i :: 0 <= i < |settings| ==> Fits(settings[i], allowed, otherOnly)
  }

  /** The ways to write a setting: the name alone, name and value joined by `=`, or two words when
      the second is not taken for an option. */
  predicate Spelling(words: seq<Token>, setting: Setting) {
    match setting.value
    case None => words == [Str(setting.name)]
    case Some(value) =>
      || words == [Str(setting.name + "=" + value)]
      || (words == [Str(setting.name), Str(value)] && !Dashed(value))
  }

  ghost predicate Spells(words: seq<Token>, settings: seq<Setting>)
    decreases |settings|
  {
    if settings == [] then words == []
    else exists n: nat :: n <= |words| && Spelling(words[..n], settings[0]) && Spells(words[n..], settings[1..])
  }

  lemma {:induction false} CutAt(name: string, rest: string)
    requires forall i :: 0 <= i < |name| ==> name[i] != '='
    ensures Cut(name) == |name|
    ensures Cut(name + "=" + rest) == |name|
  {
    var joined := name + "=" + rest;
    assert joined[|name|] == '=';
    assert forall i :: 0 <= i < |name| ==> joined[i] == name[i];
  }

  lemma {:induction false} JoinedHasControl(name: string, value: string)
    requires OptionName(name)
    ensures HasControlChars(name + "=" + value) <==> HasControlChars(value)
  {
    var joined := name + "=" + value;
    assert forall i :: 0 <= i < |name| ==> joined[i] == name[i];
    assert forall i :: 0 <= i < |value| ==> joined[|name| + 1 + i] == value[i];
    if HasControlChars(joined) {
      var i :| 0 <= i < |joined| && Control(joined[i]);
      assert Control(value[i - |name| - 1]);
    }
    if HasControlChars(value) {
      var i :| 0 <= i < |value| && Control(value[i]);
      assert Control(joined[|name| + 1 + i]);
    }
  }

  /** What is read is spelled by the words it was read from, and fits. */
  lemma {:induction false} ReadIsSpelled(words: seq<Token>, allowed: Table, otherOnly: set<string>)
    requires words != [] && WellFormed(allowed) && ReadOne(words, allowed, otherOnly).Success?
    ensures var one := ReadOne(words, allowed, otherOnly).value;
            Fits(one.setting, allowed, otherOnly) && Spelling(words[..one.words], one.setting)
  {
    var token := words[0].text;
    var cut := Cut(token);
    var name := token[..cut];
    assert words[..1] == [Str(token)];
    if cut < |token| {
      assert token == name + "=" + token[cut + 1..];
      JoinedHasControl(name, token[cut + 1..]);
    } else {
      assert name == token;
      if allowed[name] {
        assert words[..2] == [Str(name), Str(words[1].text)];
      }
    }
  }

  /** A fitting setting at the front is read, whichever way it is spelled. */
  lemma {:induction false} SpelledIsRead(words: seq<Token>, n: nat, setting: Setting, allowed: Table,
          otherOnly: set<string>)
    requires WellFormed(allowed) && n <= |words| && Spelling(words[..n], setting) && Fits(setting, allowed, otherOnly)
    ensures n > 0 && ReadOne(words, allowed, otherOnly) == Success(Reading(setting, n))
  {
    var name := setting.name;
    assert OptionName(name);
    var front := words[..n];
    assert words[0] == front[0];
    if setting.value.None? {
      CutAt(name, "");
      assert name[..|name|] == name;
    } else {
      var value := setting.value.value;
      CutAt(name, value);
      JoinedHasControl(name, value);
      var joined := name + "=" + value;
      assert joined[..|name|] == name && joined[|name| + 1..] == value;
      assert name[..|name|] == name;
      if n == 2 {
        assert words[1] == front[1];
      }
    }
  }

  lemma {:induction false} SpelledIsAccepted(words: seq<Token>, settings: seq<Setting>, allowed: Table,
          otherOnly: set<string>)
    requires WellFormed(allowed) && Spells(words, settings) && AllFit(settings, allowed, otherOnly)
    ensures ReadAll(words, allowed, otherOnly) == Success(settings)
    decreases |settings|
  {
    if settings != [] {
      var n: nat :| n <= |words| && Spelling(words[..n], settings[0]) && Spells(words[n..], settings[1..]);
      assert Fits(settings[0], allowed, otherOnly);
      SpelledIsRead(words, n, settings[0], allowed, otherOnly);
      SpelledIsAccepted(words[n..], settings[1..], allowed, otherOnly);
      assert settings == [settings[0]] + settings[1..];
    }
  }

  lemma {:induction false} AcceptedIsSpelled(words: seq<Token>, allowed: Table, otherOnly: set<string>)
    requires WellFormed(allowed) && ReadAll(words, allowed, otherOnly).Success?
    ensures var settings := ReadAll(words, allowed, otherOnly).value;
            Spells(words, settings) && AllFit(settings, allowed, otherOnly)
    decreases |words|
  {
    if words != [] {
      var n, setting, rest := FirstRead(words, allowed, otherOnly);
      AcceptedIsSpelled(words[n..], allowed, otherOnly);
      SpellsMore(words[..n], words[n..], [setting] + rest);
    }
  }

  lemma {:induction false} FirstRead(words: seq<Token>, allowed: Table, otherOnly: set<string>)
    returns (n: nat, setting: Setting, rest: seq<Setting>)
    requires words != [] && WellFormed(allowed) && ReadAll(words, allowed, otherOnly).Success?
    ensures 0 < n <= |words| && words == words[..n] + words[n..]
    ensures ReadAll(words[n..], allowed, otherOnly) == Success(rest)
    ensures ReadAll(words, allowed, otherOnly) == Success([setting] + rest) && ([setting] + rest)[1..] == rest
    ensures Fits(setting, allowed, otherOnly) && Spelling(words[..n], setting)
  {
    var one := ReadOne(words, allowed, otherOnly).value;
    n, setting := one.words, one.setting;
    rest := ReadAll(words[n..], allowed, otherOnly).value;
    ReadIsSpelled(words, allowed, otherOnly);
  }

  /** The reader accepts exactly the words that spell fitting settings, and returns those. */
  lemma {:induction false} ReadsExactlyTheGrammar(words: seq<Token>, settings: seq<Setting>, allowed: Table,
          otherOnly: set<string>)
    requires WellFormed(allowed)
    ensures ReadAll(words, allowed, otherOnly) == Success(settings)
            <==> Spells(words, settings) && AllFit(settings, allowed, otherOnly)
  {
    if Spells(words, settings) && AllFit(settings, allowed, otherOnly) {
      SpelledIsAccepted(words, settings, allowed, otherOnly);
    }
    if ReadAll(words, allowed, otherOnly).Success? {
      AcceptedIsSpelled(words, allowed, otherOnly);
    }
  }

  // ---- The normal form

  function Written(setting: Setting): seq<string> {
    match setting.value
    case None => [setting.name]
    case Some(value) => if Long(setting.name) then [setting.name + "=" + value] else [setting.name, value]
  }

  function Render(settings: seq<Setting>): seq<string> {
    if settings == [] then [] else Written(settings[0]) + Render(settings[1..])
  }

  lemma {:induction false} RenderAppend(settings: seq<Setting>, setting: Setting)
    ensures Render(settings + [setting]) == Render(settings) + Written(setting)
  {
    if settings == [] {
      assert [setting][1..] == [];
    } else {
      assert (settings + [setting])[1..] == settings[1..] + [setting];
      RenderAppend(settings[1..], setting);
    }
  }

  lemma {:induction false} RenderIsSpelled(settings: seq<Setting>, allowed: Table, otherOnly: set<string>)
    requires WellFormed(allowed) && AllFit(settings, allowed, otherOnly)
    ensures Spells(Strs(Render(settings)), settings)
  {
    if settings != [] {
      var first := Written(settings[0]);
      var words := Strs(Render(settings));
      assert Fits(settings[0], allowed, otherOnly);
      RenderIsSpelled(settings[1..], allowed, otherOnly);
      assert words == Strs(first) + Strs(Render(settings[1..]));
      WrittenIsSpelling(settings[0], allowed, otherOnly);
      SpellsMore(Strs(first), Strs(Render(settings[1..])), settings);
    }
  }

  lemma {:induction false} WrittenIsSpelling(setting: Setting, allowed: Table, otherOnly: set<string>)
    requires WellFormed(allowed) && Fits(setting, allowed, otherOnly)
    ensures Spelling(Strs(Written(setting)), setting)
  {
    var words := Strs(Written(setting));
    if setting.value.None? {
      assert words == [Str(setting.name)];
    } else if Long(setting.name) {
      assert words == [Str(setting.name + "=" + setting.value.value)];
    } else {
      assert words == [Str(setting.name), Str(setting.value.value)];
    }
  }

  lemma {:induction false} SpellsMore(first: seq<Token>, rest: seq<Token>, settings: seq<Setting>)
    requires settings != [] && Spelling(first, settings[0]) && Spells(rest, settings[1..])
    ensures Spells(first + rest, settings)
  {
    var words := first + rest;
    assert words[..|first|] == first && words[|first|..] == rest;
  }

  lemma {:induction false} ExpandPastWord(word: string, rest: seq<Token>, allowed: Table)
    requires ExpandShortFlags(word, allowed) == [word]
    ensures Expand([Str(word)] + rest, allowed) == [Str(word)] + Expand(rest, allowed)
  {
    assert ([Str(word)] + rest)[1..] == rest;
    assert Strs([word]) == [Str(word)];
  }

  lemma {:induction false} ExpandPastPair(first: string, second: string, rest: seq<Token>, allowed: Table)
    requires ExpandShortFlags(first, allowed) == [first] && ExpandShortFlags(second, allowed) == [second]
    ensures Expand([Str(first), Str(second)] + rest, allowed) == [Str(first), Str(second)] + Expand(rest, allowed)
  {
    ExpandPastWord(second, rest, allowed);
    ExpandPastWord(first, [Str(second)] + rest, allowed);
    assert [Str(first), Str(second)] + rest == [Str(first)] + ([Str(second)] + rest);
  }

  lemma {:induction false} WrittenIsNoBundle(setting: Setting, allowed: Table)
    requires OptionName(setting.name) && (setting.value.Some? ==> ValueFits(setting.name, setting.value.value))
    ensures forall word :: word in Written(setting) ==> ExpandShortFlags(word, allowed) == [word]
  {
    if setting.value.Some? && Long(setting.name) {
      assert Long(setting.name + "=" + setting.value.value);
    }
  }

  /** The normal form holds no bundle of short flags: expanding leaves it alone. */
  lemma {:induction false} RenderStaysExpanded(settings: seq<Setting>, allowed: Table, otherOnly: set<string>)
    requires WellFormed(allowed) && AllFit(settings, allowed, otherOnly)
    ensures Expand(Strs(Render(settings)), allowed) == Strs(Render(settings))
  {
    if settings != [] {
      var first := Written(settings[0]);
      var rest := Strs(Render(settings[1..]));
      assert Fits(settings[0], allowed, otherOnly);
      WrittenIsNoBundle(settings[0], allowed);
      RenderStaysExpanded(settings[1..], allowed, otherOnly);
      assert Strs(Render(settings)) == Strs(first) + rest;
      if |first| == 1 {
        assert Strs(first) == [Str(first[0])];
        ExpandPastWord(first[0], rest, allowed);
      } else {
        assert Strs(first) == [Str(first[0]), Str(first[1])];
        ExpandPastPair(first[0], first[1], rest, allowed);
      }
    }
  }

  // ---- A command's flags

  /** The options of one borg command, and those of them only one major has. */
  datatype Grammar = Grammar(allowed: Table, major1Only: set<string>, major2Only: set<string>)

  type Commands = map<string, Grammar>

  predicate AllWellFormed(commands: Commands) {
    forall command :: command in commands ==> WellFormed(commands[command].allowed)
  }

  /** The options the given major does not have; without a major nothing is refused. */
  function OtherOnly(grammar: Grammar, major: Option<int>): set<string> {
    match major
    case None => {}
    case Some(m) => if m == 2 then grammar.major1Only else grammar.major2Only
  }

  /** The words of the flags, or None when a text does not split. */
  function Words(flags: Flags): Option<seq<Token>> {
    match flags
    case Absent => Some([])
    case Text(None) => None
    case Text(Some(words)) => Some(Strs(words))
    case Listing(tokens) => Some(tokens)
  }

  function Parse(flags: Flags, command: string, major: Option<int>, commands: Commands)
          : Result<seq<Setting>, FlagError> {
    if command !in commands then Failure(UnsupportedCommand)
    else
      var grammar := commands[command];
      match Words(flags)
      case None => Failure(InvalidText)
      case Some(tokens) => ReadAll(Expand(tokens, grammar.allowed), grammar.allowed, OtherOnly(grammar, major))
  }

  function Prefixed(done: seq<Setting>, rest: Result<seq<Setting>, FlagError>): Result<seq<Setting>, FlagError> {
    match rest
    case Failure(e) => Failure(e)
    case Success(settings) => Success(done + settings)
  }

  function Rendered(parsed: Result<seq<Setting>, FlagError>): Result<seq<string>, FlagError> {
    match parsed
    case Failure(e) => Failure(e)
    case Success(settings) => Success(Render(settings))
  }

  /** The settings in `done` were read from the first `index` words. */
  ghost predicate ReadUpTo(tokens: seq<Token>, index: nat, done: seq<Setting>, allowed: Table, otherOnly: set<string>) {
    && index <= |tokens|
    && ReadAll(tokens, allowed, otherOnly) == Prefixed(done, ReadAll(tokens[index..], allowed, otherOnly))
  }

  lemma {:induction false} ReadNothingYet(tokens: seq<Token>, allowed: Table, otherOnly: set<string>)
    ensures ReadUpTo(tokens, 0, [], allowed, otherOnly)
  {
    assert tokens[0..] == tokens;
    var whole := ReadAll(tokens, allowed, otherOnly);
    if whole.Success? {
      assert [] + whole.value == whole.value;
    }
  }

  lemma {:induction false} ReadNext(tokens: seq<Token>, index: nat, done: seq<Setting>, allowed: Table,
          otherOnly: set<string>, one: Result<Reading, FlagError>)
    requires index < |tokens| && ReadUpTo(tokens, index, done, allowed, otherOnly)
    requires one == ReadOne(tokens[index..], allowed, otherOnly)
    ensures one.Failure? ==> ReadAll(tokens, allowed, otherOnly) == Failure(one.error)
    ensures one.Success? ==> ReadUpTo(tokens, index + one.value.words, done + [one.value.setting], allowed, otherOnly)
  {
    if one.Success? {
      assert tokens[index..][one.value.words..] == tokens[index + one.value.words..];
      var rest := ReadAll(tokens[index + one.value.words..], allowed, otherOnly);
      if rest.Success? {
        assert done + ([one.value.setting] + rest.value) == done + [one.value.setting] + rest.value;
      }
    }
  }

  lemma {:induction false} ReadToTheEnd(tokens: seq<Token>, done: seq<Setting>, allowed: Table, otherOnly: set<string>)
    requires ReadUpTo(tokens, |tokens|, done, allowed, otherOnly)
    ensures ReadAll(tokens, allowed, otherOnly) == Success(done)
  {
    assert tokens[|tokens|..] == [] && done + [] == done;
  }

  /** `parse_borg_flags`. */
  method ParseBorgFlags(flags: Flags, command: string, major: Option<int>, commands: Commands)
    returns (result: Result<seq<string>, FlagError>)
    requires AllWellFormed(commands)
    ensures result == Rendered(Parse(flags, command, major, commands))
  {
    if command !in commands {
      return Failure(UnsupportedCommand);
    }
    var allowed := commands[command].allowed;
    var otherOnly := OtherOnly(commands[command], major);
    if flags.Absent? {
      return Success([]);
    }
    var tokens: seq<Token>;
    if flags.Text? {
      if flags.words.None? {
        return Failure(InvalidText);
      }
      tokens := Strs(flags.words.value);
    } else {
      tokens := flags.tokens;
    }
    tokens := Expand(tokens, allowed);
    result := ReadTokens(tokens, allowed, otherOnly);
  }

  method ReadTokens(tokens: seq<Token>, allowed: Table, otherOnly: set<string>)
          returns (result: Result<seq<string>, FlagError>)
    ensures result == Rendered(ReadAll(tokens, allowed, otherOnly))
  {
    var normal: seq<string> := [];
    ghost var done: seq<Setting> := [];
    var index := 0;
    ReadNothingYet(tokens, allowed, otherOnly);
    while index < |tokens|
      invariant normal == Render(done) && ReadUpTo(tokens, index, done, allowed, otherOnly)
    {
      var failure: Option<FlagError>;
      failure, index, normal, done := AddOption(tokens, index, normal, done, allowed, otherOnly);
      if failure.Some? {
        return Failure(failure.value);
      }
    }
    ReadToTheEnd(tokens, done, allowed, otherOnly);
    return Success(normal);
  }

  /** One turn of the loop: the words of one more option, or the reason that ends it. */
  method AddOption(tokens: seq<Token>, index: nat, normal: seq<string>, ghost done: seq<Setting>, allowed: Table,
          otherOnly: set<string>)
    returns (failure: Option<FlagError>, next: nat, longer: seq<string>, ghost more: seq<Setting>)
    requires index < |tokens| && normal == Render(done) && ReadUpTo(tokens, index, done, allowed, otherOnly)
    ensures failure.Some? ==> ReadAll(tokens, allowed, otherOnly) == Failure(failure.value)
    ensures failure.None? ==>
              next > index && longer == Render(more) && ReadUpTo(tokens, next, more, allowed, otherOnly)
  {
    var one := Advance(tokens, index, done, allowed, otherOnly);
    if one.Failure? {
      return Some(one.error), index, normal, done;
    }
    RenderAppend(done, one.value.setting);
    more := done + [one.value.setting];
    longer := normal + Written(one.value.setting);
    return None, index + one.value.words, longer, more;
  }

  method Advance(tokens: seq<Token>, index: nat, ghost done: seq<Setting>, allowed: Table, otherOnly: set<string>)
    returns (one: Result<Reading, FlagError>)
    requires index < |tokens| && ReadUpTo(tokens, index, done, allowed, otherOnly)
    ensures one.Failure? ==> ReadAll(tokens, allowed, otherOnly) == Failure(one.error)
    ensures one.Success? ==> one.value.words > 0
    ensures one.Success? ==>
              ReadUpTo(tokens, index + one.value.words, done + [one.value.setting], allowed, otherOnly)
  {
    one := NextOption(tokens, index, allowed, otherOnly);
    ReadNext(tokens, index, done, allowed, otherOnly, one);
  }

  /** The body of the loop: the option that starts at `index`. */
  method NextOption(tokens: seq<Token>, index: nat, allowed: Table, otherOnly: set<string>)
          returns (one: Result<Reading, FlagError>)
    requires index < |tokens|
    ensures one == ReadOne(tokens[index..], allowed, otherOnly)
  {
    var token := tokens[index];
    if token.NotStr? || HasControlChars(token.text) {
      return Failure(InvalidFlag);
    }
    if !Dashed(token.text) {
      return Failure(Positional);
    }
    var cut := Cut(token.text);
    var name := token.text[..cut];
    if name !in allowed {
      return Failure(NotAllowed);
    }
    if name in otherOnly {
      return Failure(OtherMajor);
    }
    var joined := cut < |token.text|;
    if !allowed[name] {
      return if joined then Failure(TakesNoValue) else Success(Reading(Setting(name, None), 1));
    }
    var value := if joined then token.text[cut + 1..] else "";
    if !joined {
      if index + 1 >= |tokens| {
        return Failure(RequiresValue);
      }
      if tokens[index + 1].NotStr? {
        return Failure(NotAString);
      }
      value := tokens[index + 1].text;
      if Dashed(value) {
        return Failure(RequiresValue);
      }
      if HasControlChars(value) {
        return Failure(InvalidValue);
      }
    }
    if value == "" {
      return Failure(RequiresValue);
    }
    if !Long(name) && Dashed(value) {
      return Failure(InvalidValue);
    }
    return Success(Reading(Setting(name, Some(value)), if joined then 1 else 2));
  }

  /** Accepted are the flags whose words spell settings that the command and the major take, and
      they can be read in one way only. */
  lemma {:induction false} AcceptsExactly(flags: Flags, command: string, major: Option<int>, commands: Commands,
          settings: seq<Setting>)
    requires AllWellFormed(commands)
    ensures Parse(flags, command, major, commands) == Success(settings)
            <==> command in commands && Words(flags).Some?
                 && Spells(Expand(Words(flags).value, commands[command].allowed), settings)
                 && AllFit(settings, commands[command].allowed, OtherOnly(commands[command], major))
  {
    if command in commands && Words(flags).Some? {
      var allowed := commands[command].allowed;
      ReadsExactlyTheGrammar(Expand(Words(flags).value, allowed), settings, allowed,
          OtherOnly(commands[command], major));
    }
  }

  /** Parsing the normal form again changes nothing: the same settings are read from it, so the
      same words come back. */
  lemma {:induction false} ParsingItsOutputChangesNothing(flags: Flags, command: string, major: Option<int>,
          commands: Commands)
    requires AllWellFormed(commands) && Parse(flags, command, major, commands).Success?
    ensures var settings := Parse(flags, command, major, commands).value;
            Parse(Listing(Strs(Render(settings))), command, major, commands) == Success(settings)
  {
    var settings := Parse(flags, command, major, commands).value;
    var allowed, otherOnly := commands[command].allowed, OtherOnly(commands[command], major);
    AcceptsExactly(flags, command, major, commands, settings);
    RenderStaysExpanded(settings, allowed, otherOnly);
    RenderIsSpelled(settings, allowed, otherOnly);
    AcceptsExactly(Listing(Strs(Render(settings))), command, major, commands, settings);
  }

  // ---- What borg sees

  /** The words borg would take for paths: those without a dash that no option before them takes as
      its value. */
  function Stray(argv: seq<string>, allowed: Table): seq<string>
    decreases |argv|
  {
    if argv == [] then []
    else if !Dashed(argv[0]) then [argv[0]] + Stray(argv[1..], allowed)
    else if argv[0] in allowed && allowed[argv[0]] && |argv| > 1 then Stray(argv[2..], allowed)
    else Stray(argv[1..], allowed)
  }

  /** The word is harmless to borg of this major: no control character, and an option it has. */
  predicate Harmless(word: string, allowed: Table, otherOnly: set<string>) {
    && !HasControlChars(word)
    && (Dashed(word) ==> word[..Cut(word)] in allowed && word[..Cut(word)] !in otherOnly)
  }

  lemma {:induction false} WrittenIsHarmless(setting: Setting, allowed: Table, otherOnly: set<string>)
    requires WellFormed(allowed) && Fits(setting, allowed, otherOnly)
    ensures forall word :: word in Written(setting) ==> Harmless(word, allowed, otherOnly)
  {
    var name := setting.name;
    assert OptionName(name);
    var rest := if setting.value.Some? then setting.value.value else "";
    CutAt(name, rest);
    JoinedHasControl(name, rest);
    assert name[..|name|] == name && (name + "=" + rest)[..|name|] == name;
  }

  lemma {:induction false} NothingStray(settings: seq<Setting>, allowed: Table, otherOnly: set<string>)
    requires WellFormed(allowed) && AllFit(settings, allowed, otherOnly)
    ensures Stray(Render(settings), allowed) == []
    ensures forall word :: word in Render(settings) ==> Harmless(word, allowed, otherOnly)
  {
    if settings != [] {
      var setting := settings[0];
      assert Fits(setting, allowed, otherOnly) && OptionName(setting.name);
      NothingStray(settings[1..], allowed, otherOnly);
      WrittenIsHarmless(setting, allowed, otherOnly);
      var argv := Render(settings);
      if setting.value.Some? && !Long(setting.name) {
        assert argv[2..] == Render(settings[1..]);
      } else {
        assert argv[1..] == Render(settings[1..]);
        assert argv[0] in allowed && allowed[argv[0]] ==> setting.value.Some?;
        if setting.value.Some? {
          assert argv[0][|setting.name|] == '=';
        }
      }
    }
  }

  /** Whatever is accepted reaches borg without a path among its words, and with no option that the
      major does not have. */
  lemma {:induction false} OutputIsHarmless(flags: Flags, command: string, major: Option<int>, commands: Commands)
    requires AllWellFormed(commands) && Parse(flags, command, major, commands).Success?
    ensures var argv, grammar := Render(Parse(flags, command, major, commands).value), commands[command];
            Stray(argv, grammar.allowed) == []
            && forall word :: word in argv ==> Harmless(word, grammar.allowed, OtherOnly(grammar, major))
  {
    var settings := Parse(flags, command, major, commands).value;
    AcceptsExactly(flags, command, major, commands, settings);
    NothingStray(settings, commands[command].allowed, OtherOnly(commands[command], major));
  }
}
