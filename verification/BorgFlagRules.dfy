/**
 * The rules of the flag normaliser, one by one, on the words and tables themselves: which major's
 * options are refused, what a bundle of short flags means, why a word is refused, and what the
 * output looks like.
 */
module BorgFlagRules {
  import opened Wrappers
  import opened BorgFlags

  // ---- The majors

  /** Borg of this major has the option; without a major every option passes. */
  predicate MajorHas(grammar: Grammar, major: Option<int>, name: string) {
    && (major == Some(2) ==> name !in grammar.major1Only)
    && (major.Some? && major.value != 2 ==> name !in grammar.major2Only)
  }

  lemma {:induction false} OtherOnlyIsTheOthers(grammar: Grammar, major: Option<int>, name: string)
    ensures name in OtherOnly(grammar, major) <==> !MajorHas(grammar, major, name)
  {
  }

  lemma {:induction false} FitWithMajor(settings: seq<Setting>, grammar: Grammar, major: Option<int>)
    ensures AllFit(settings, grammar.allowed, OtherOnly(grammar, major))
            <==> AllFit(settings, grammar.allowed, {})
                 && forall i :: 0 <= i < |settings| ==> MajorHas(grammar, major, settings[i].name)
  {
    forall i | 0 <= i < |settings|
      ensures Fits(settings[i], grammar.allowed, OtherOnly(grammar, major))
              <==> Fits(settings[i], grammar.allowed, {}) && MajorHas(grammar, major, settings[i].name)
    {
      OtherOnlyIsTheOthers(grammar, major, settings[i].name);
    }
  }

  /** Flags that spell settings of the command are accepted if and only if the major has all of their
      options: with major 2 none that only Borg 1 has, with any other given one none that only Borg 2
      has, and without a major any. */
  lemma {:induction false} MajorDecidesExactly(flags: Flags, command: string, major: Option<int>,
          commands: Commands, settings: seq<Setting>)
    requires AllWellFormed(commands) && command in commands && Words(flags).Some?
    requires Spells(Expand(Words(flags).value, commands[command].allowed), settings)
    requires AllFit(settings, commands[command].allowed, {})
    ensures Parse(flags, command, major, commands).Success?
            <==> forall i :: 0 <= i < |settings| ==> MajorHas(commands[command], major, settings[i].name)
    ensures Parse(flags, command, major, commands).Success? ==>
              Parse(flags, command, major, commands).value == settings
  {
    var grammar := commands[command];
    var words := Expand(Words(flags).value, grammar.allowed);
    FitWithMajor(settings, grammar, major);
    AcceptsExactly(flags, command, major, commands, settings);
    if Parse(flags, command, major, commands).Success? {
      var read := Parse(flags, command, major, commands).value;
      AcceptsExactly(flags, command, major, commands, read);
      FitWithMajor(read, grammar, major);
      ReadsExactlyTheGrammar(words, read, grammar.allowed, {});
      ReadsExactlyTheGrammar(words, settings, grammar.allowed, {});
    }
  }

  /** The word begins with an option of the table, up to a `=` if there is one. */
  ghost predicate NamesOption(word: string, name: string) {
    word == name || (name <= word && |word| > |name| && word[|name|] == '=' && '=' !in name)
  }

  /** No word of the output holds a control character, and every one with a dash names an option that
      the command and the major have. */
  lemma {:induction false} OutputNamesItsOptions(flags: Flags, command: string, major: Option<int>, commands: Commands,
          word: string)
    requires AllWellFormed(commands) && Parse(flags, command, major, commands).Success?
    requires word in Render(Parse(flags, command, major, commands).value)
    ensures forall i :: 0 <= i < |word| ==> 32 <= word[i] as int && word[i] as int != 127
    ensures |word| > 0 && word[0] == '-' ==>
              exists name :: name in commands[command].allowed && NamesOption(word, name)
                             && MajorHas(commands[command], major, name)
  {
    var grammar := commands[command];
    OutputIsHarmless(flags, command, major, commands);
    assert Harmless(word, grammar.allowed, OtherOnly(grammar, major));
    forall i | 0 <= i < |word| ensures 32 <= word[i] as int && word[i] as int != 127 {
      assert !Control(word[i]);
    }
    if Dashed(word) {
      var name := word[..Cut(word)];
      OtherOnlyIsTheOthers(grammar, major, name);
      assert forall i :: 0 <= i < |name| ==> name[i] == word[i];
      assert NamesOption(word, name);
    }
  }

  // ---- Bundles of short flags

  /** The option of one letter. */
  function Short(letter: char): string {
    ['-', letter]
  }

  /** Every letter is an option that takes no value. */
  predicate AllShort(letters: string, allowed: Table) {
    forall k :: 0 <= k < |letters| ==> Short(letters[k]) in allowed && !allowed[Short(letters[k])]
  }

  function Shorts(letters: string): (words: seq<string>)
    ensures |words| == |letters| && forall k :: 0 <= k < |letters| ==> words[k] == Short(letters[k])
  {
    seq(|letters|, k requires 0 <= k < |letters| => Short(letters[k]))
  }

  function Switches(letters: string): (settings: seq<Setting>)
    ensures |settings| == |letters|
    ensures forall k :: 0 <= k < |letters| ==> settings[k] == Setting(Short(letters[k]), None)
  {
    seq(|letters|, k requires 0 <= k < |letters| => Setting(Short(letters[k]), None))
  }

  lemma {:induction false} ExpandAppend(a: seq<Token>, b: seq<Token>, allowed: Table)
    ensures Expand(a + b, allowed) == Expand(a, allowed) + Expand(b, allowed)
  {
    if a == [] {
      assert a + b == b;
    } else {
      assert (a + b)[1..] == a[1..] + b;
      ExpandAppend(a[1..], b, allowed);
    }
  }

  lemma {:induction false} LettersOfBundle(letters: string, allowed: Table)
    requires |letters| >= 1
    ensures Letters("-" + letters) == Shorts(letters)
    ensures AllShort(letters, allowed)
            <==> forall flag :: flag in Letters("-" + letters) ==> flag in allowed && !allowed[flag]
  {
    assert Letters("-" + letters) == Shorts(letters);
    if forall flag :: flag in Shorts(letters) ==> flag in allowed && !allowed[flag] {
      forall k | 0 <= k < |letters| ensures Short(letters[k]) in allowed && !allowed[Short(letters[k])] {
        assert Shorts(letters)[k] in Shorts(letters);
      }
    }
  }

  /** A word of a dash and at least two letters stands for the options of its letters if all of them
      are options without a value, and for itself otherwise; every other word stands for itself. */
  lemma {:induction false} BundleExpandsExactly(word: string, allowed: Table)
    ensures ExpandShortFlags(word, allowed)
            == if |word| >= 3 && word[0] == '-' && word[1] != '-' && AllShort(word[1..], allowed)
               then Shorts(word[1..]) else [word]
  {
    if |word| >= 3 && word[0] == '-' && word[1] != '-' {
      assert word == "-" + word[1..];
      LettersOfBundle(word[1..], allowed);
    }
  }

  lemma {:induction false} SwitchIsRead(letter: char, rest: seq<Token>, allowed: Table, otherOnly: set<string>)
    requires WellFormed(allowed) && Short(letter) in allowed && !allowed[Short(letter)] && Short(letter) !in otherOnly
    ensures ReadOne([Str(Short(letter))] + rest, allowed, otherOnly)
            == Success(Reading(Setting(Short(letter), None), 1))
  {
    var words := [Str(Short(letter))] + rest;
    assert words[..1] == [Str(Short(letter))];
    SpelledIsRead(words, 1, Setting(Short(letter), None), allowed, otherOnly);
  }

  lemma {:induction false} SwitchesAreRead(letters: string, rest: seq<Token>, allowed: Table, otherOnly: set<string>)
    requires WellFormed(allowed) && AllShort(letters, allowed)
    requires forall k :: 0 <= k < |letters| ==> Short(letters[k]) !in otherOnly
    ensures ReadAll(Strs(Shorts(letters)) + rest, allowed, otherOnly)
            == Prefixed(Switches(letters), ReadAll(rest, allowed, otherOnly))
    decreases |letters|
  {
    if letters == "" {
      assert Strs(Shorts(letters)) + rest == rest;
      if ReadAll(rest, allowed, otherOnly).Success? {
        assert Switches(letters) + ReadAll(rest, allowed, otherOnly).value == ReadAll(rest, allowed, otherOnly).value;
      }
    } else {
      var words := Strs(Shorts(letters[1..])) + rest;
      assert Strs(Shorts(letters)) + rest == [Str(Short(letters[0]))] + words;
      SwitchIsRead(letters[0], words, allowed, otherOnly);
      assert ([Str(Short(letters[0]))] + words)[1..] == words;
      SwitchesAreRead(letters[1..], rest, allowed, otherOnly);
      if ReadAll(rest, allowed, otherOnly).Success? {
        var read := ReadAll(rest, allowed, otherOnly).value;
        assert Switches(letters) + read == [Setting(Short(letters[0]), None)] + (Switches(letters[1..]) + read);
      }
    }
  }

  /** At the front of any words, a bundle of switches reads as its switches one by one. */
  lemma {:induction false} BundleReadsAsItsSwitches(letters: string, rest: seq<Token>, allowed: Table,
          otherOnly: set<string>)
    requires WellFormed(allowed) && AllShort(letters, allowed) && |letters| >= 2 && letters[0] != '-'
    requires forall k :: 0 <= k < |letters| ==> Short(letters[k]) !in otherOnly
    ensures ReadAll(Expand([Str("-" + letters)] + rest, allowed), allowed, otherOnly)
            == Prefixed(Switches(letters), ReadAll(Expand(rest, allowed), allowed, otherOnly))
  {
    var word := "-" + letters;
    assert word[1..] == letters;
    BundleExpandsExactly(word, allowed);
    ExpandAppend([Str(word)], rest, allowed);
    assert Expand([Str(word)], allowed) == Strs(Shorts(letters)) by {
      assert [Str(word)][1..] == [];
      assert Expanded(Str(word), allowed) == Strs(Shorts(letters));
    }
    SwitchesAreRead(letters, Expand(rest, allowed), allowed, otherOnly);
  }

  // ---- Reasons

  predicate Clean(token: Token) {
    token.Str? && forall i :: 0 <= i < |token.text| ==> 32 <= token.text[i] as int && token.text[i] as int != 127
  }

  lemma {:induction false} CleanHasNoControl(token: Token)
    requires token.Str?
    ensures Clean(token) <==> !HasControlChars(token.text)
  {
    if !HasControlChars(token.text) {
      forall i | 0 <= i < |token.text| ensures 32 <= token.text[i] as int && token.text[i] as int != 127 {
        assert !Control(token.text[i]);
      }
    }
  }

  /** The word is an option of the command and the major, with or without a `=` behind its name. */
  predicate KnownOption(token: Token, name: string, allowed: Table, otherOnly: set<string>) {
    && Clean(token) && Dashed(token.text) && name == token.text[..Cut(token.text)]
    && name in allowed && name !in otherOnly
  }

  /** Why the first word is refused, case by case, for an option that is known. */
  lemma {:induction false} KnownOptionIsRefusedFor(words: seq<Token>, name: string, allowed: Table,
          otherOnly: set<string>)
    requires words != [] && KnownOption(words[0], name, allowed, otherOnly)
    ensures var one, joined := ReadOne(words, allowed, otherOnly), |words[0].text| > |name|;
            && (!allowed[name] ==> (one == Failure(TakesNoValue) <==> joined))
            && (!allowed[name] && !joined ==> one == Success(Reading(Setting(name, None), 1)))
            && (allowed[name] && !joined && (|words| == 1 || (words[1].Str? && Dashed(words[1].text))) ==>
                  one == Failure(RequiresValue))
            && (allowed[name] && !joined && |words| > 1 && words[1].NotStr? ==> one == Failure(NotAString))
            && (allowed[name] && !joined && |words| > 1 && words[1].Str? && !Dashed(words[1].text) ==>
                  one == (if words[1].text == "" then Failure(RequiresValue)
                          else if !Clean(words[1]) then Failure(InvalidValue)
                          else Success(Reading(Setting(name, Some(words[1].text)), 2))))
            && (allowed[name] && joined ==>
                  var value := words[0].text[|name| + 1..];
                  one == (if value == "" then Failure(RequiresValue)
                          else if !Long(name) && Dashed(value) then Failure(InvalidValue)
                          else Success(Reading(Setting(name, Some(value)), 1))))
  {
    CleanHasNoControl(words[0]);
    if |words| > 1 && words[1].Str? {
      CleanHasNoControl(words[1]);
    }
  }

  /** Why any other first word is refused. */
  lemma {:induction false} OtherWordIsRefusedFor(words: seq<Token>, allowed: Table, otherOnly: set<string>)
    requires words != []
    ensures var one, first := ReadOne(words, allowed, otherOnly), words[0];
            && (!Clean(first) ==> one == Failure(InvalidFlag))
            && (Clean(first) && !Dashed(first.text) ==> one == Failure(Positional))
            && (Clean(first) && Dashed(first.text) ==>
                  var name := first.text[..Cut(first.text)];
                  && (name !in allowed ==> one == Failure(NotAllowed))
                  && (name in allowed && name in otherOnly ==> one == Failure(OtherMajor)))
  {
    if words[0].Str? {
      CleanHasNoControl(words[0]);
    }
  }

  /** The first word that is refused decides: what comes behind it is not looked at. */
  lemma {:induction false} FirstRefusalDecides(words: seq<Token>, settings: seq<Setting>, rest: seq<Token>,
          allowed: Table, otherOnly: set<string>)
    requires WellFormed(allowed) && rest != [] && ReadOne(rest, allowed, otherOnly).Failure?
    requires ReadUpTo(words + rest, |words|, settings, allowed, otherOnly)
    ensures ReadAll(words + rest, allowed, otherOnly) == Failure(ReadOne(rest, allowed, otherOnly).error)
  {
    assert (words + rest)[|words|..] == rest;
  }

  /** Flags that never come to be read: those of an unknown command, and a text that does not split. */
  lemma {:induction false} RefusedUnread(flags: Flags, command: string, major: Option<int>, commands: Commands)
    ensures command !in commands ==> Parse(flags, command, major, commands) == Failure(UnsupportedCommand)
    ensures command in commands && flags == Text(None) ==>
              Parse(flags, command, major, commands) == Failure(InvalidText)
    ensures command in commands && flags == Absent ==> Parse(flags, command, major, commands) == Success([])
  {
  }

  // ---- The normal form

  /** One word for a switch or a long option, joined to its value; two for a short option with one. */
  lemma {:induction false} NormalForm(setting: Setting)
    requires setting.value.Some? ==> ValueFits(setting.name, setting.value.value)
    ensures var words := Written(setting);
            && |words| == (if setting.value.Some? && !Long(setting.name) then 2 else 1)
            && Spelling(Strs(words), setting)
  {
    var words := Written(setting);
    if |words| == 1 {
      assert Strs(words) == [Str(words[0])];
    } else {
      assert Strs(words) == [Str(words[0]), Str(words[1])];
    }
  }
}
