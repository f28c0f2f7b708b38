/**
 * One turn of the interactive loop in `cli.py` (`interactive_mode`): how a
 * line typed at the prompt is classified, and what each kind of line does to
 * the session.
 */
module Commands {
  import opened Wrappers
  import opened Text
  import opened Session
  import Config

  /** The kinds of input line, in the order the loop tests for them. */
  datatype Command =
    | Quit
    | Clear
    | Save(name: string)
    | Load(name: string)
    | Skip
    | Send(text: string)

  /** The quit words the loop checks against. */
  const QuitWords: seq<string> := ["quit", "exit", "q"]

  /**
   * The classification of a line that has already been stripped. The
   * keyword tests compare its lower-cased form; a file name is the rest of
   * the line after its first five characters, stripped again, in its
   * original case. The tests run in the order the loop makes them.
   */
  function ClassifyStripped(s: string): (c: Command)
    ensures c.Skip? <==> s == []
    ensures c.Send? ==> c.text == s && s != []
    ensures c.Quit? <==> Lower(s) in QuitWords
    ensures c.Clear? <==> Lower(s) == "clear"
    ensures c.Save? <==> StartsWith(Lower(s), "save ")
    ensures c.Load? <==> StartsWith(Lower(s), "load ")
    ensures c.Save? || c.Load? ==> c.name == Strip(s[5..])
    ensures c.Send? <==> s != [] && Lower(s) !in QuitWords && Lower(s) != "clear"
                         && !StartsWith(Lower(s), "save ") && !StartsWith(Lower(s), "load ")
  {
    var lower := Lower(s);
    if lower in QuitWords then Quit
    else if lower == "clear" then
      assert lower[..5][0] == 'c';
      Clear
    else if StartsWith(lower, "save ") then Save(Strip(s[5..]))
    else if StartsWith(lower, "load ") then Load(Strip(s[5..]))
    else if s == [] then Skip
    else Send(s)
  }

  /** The classification of one raw input line: `input(...).strip()` first. */
  function Classify(line: string): Command
  {
    ClassifyStripped(Strip(line))
  }

  /** The loop's quit and clear words are those of `INTERACTIVE_COMMANDS`. */
  lemma KeywordsMatchConfig()
    ensures QuitWords == Config.QuitCommands
    ensures ["clear"] == Config.ClearCommands
  {
  }

  /** Whitespace around a line never changes what it means. */
  lemma ClassifyIgnoresSurroundingSpace(line: string)
    ensures Classify(Strip(line)) == Classify(line)
  {
    StripIdempotent(line);
  }

  /**
   * A `save` or `load` command always names a non-empty file, without
   * whitespace at either end: the stripped line ends in a non-space
   * character that lies after the keyword's space.
   */
  lemma CommandNameNonEmpty(line: string)
    ensures Classify(line).Save? || Classify(line).Load? ==>
              Classify(line).name != [] && Trimmed(Classify(line).name)
  {
    var s := Strip(line);
    var c := ClassifyStripped(s);
    assert Classify(line) == c;
    if c.Save? || c.Load? {
      var lower := Lower(s);
      assert StartsWith(lower, "save ") || StartsWith(lower, "load ");
      assert c.name == Strip(s[5..]);
      assert LowerChar(s[4]) == ' ' by {
        var keyword := lower[..5];
        assert keyword == "save " || keyword == "load ";
        assert keyword[4] == ' ';
        assert lower[4] == keyword[4];
      }
      NameAfterSpace(s);
    }
  }

  /** In a stripped line whose fifth character is a space, something non-blank follows it. */
  lemma NameAfterSpace(s: string)
    requires Trimmed(s) && |s| >= 5 && LowerChar(s[4]) == ' '
    ensures Strip(s[5..]) != []
  {
    assert IsSpace(s[4]);
    assert |s| > 5 by {
      assert !IsSpace(s[|s| - 1]);
    }
    var rest := s[5..];
    var lead, trail := StripSplits(rest);
    assert rest[|rest| - 1] == s[|s| - 1];
  }

  /**
   * A bare `save` or `load` without a file name, in any case and with any
   * surrounding blanks, is sent to the model as a message.
   */
  lemma BareKeywordIsSent(line: string)
    requires Lower(Strip(line)) == "save" || Lower(Strip(line)) == "load"
    ensures Classify(line) == Send(Strip(line))
  {
    var lower := Lower(Strip(line));
    assert lower !in QuitWords by {
      assert |lower| == 4 && (lower[0] == 's' || lower[0] == 'l');
      assert "quit"[0] == 'q' && "exit"[0] == 'e';
    }
    assert lower != "clear";
    assert !StartsWith(lower, "save ") && !StartsWith(lower, "load ");
  }

  /**
   * Keywords are recognised whatever their case: two stripped lines that
   * agree after lower-casing are the same kind of command, although the file
   * name of `save`/`load` and the text of a message keep the case typed.
   */
  lemma KeywordsIgnoreCase(a: string, b: string)
    requires Lower(a) == Lower(b)
    ensures ClassifyStripped(a).Quit? == ClassifyStripped(b).Quit?
    ensures ClassifyStripped(a).Clear? == ClassifyStripped(b).Clear?
    ensures ClassifyStripped(a).Save? == ClassifyStripped(b).Save?
    ensures ClassifyStripped(a).Load? == ClassifyStripped(b).Load?
    ensures ClassifyStripped(a).Skip? == ClassifyStripped(b).Skip?
  {
  }

  /**
   * The body of the interactive loop for one line: classify it and apply it
   * to the session. `quit` reports whether the loop ends. `transport`,
   * `write` and `read` stand for the HTTP exchange and the file I/O.
   */
  method HandleLine(cli: ClaudeCli, line: string, model: string, maxTokens: int, systemPrompt: Option<string>,
                    transport: Request -> Outcome, write: (string, seq<Turn>) -> bool,
                    read: string -> Option<seq<Turn>>)
    returns (quit: bool)
    modifies cli
    ensures quit <==> Classify(line).Quit?
    ensures match Classify(line)
            case Clear => cli.history == []
            case Load(name) => cli.history == AfterLoad(old(cli.history), read(name))
            case Send(text) =>
              cli.history == AfterSend(old(cli.history), text,
                                       transport(old(cli.RequestFor(text, model, maxTokens, systemPrompt))))
            case _ => cli.history == old(cli.history)
    ensures Alternating(old(cli.history)) && !Classify(line).Load? ==> Alternating(cli.history)
  {
    var command := Classify(line);
    quit := false;
    match command
    case Quit =>
      quit := true;
    case Clear =>
      cli.ClearConversation();
    case Save(name) =>
      var _ := cli.SaveConversation(name, write);
    case Load(name) =>
      var _ := cli.LoadConversation(name, read);
    case Skip =>
    case Send(text) =>
      ghost var before := cli.history;
      var response := cli.SendMessage(text, model, maxTokens, systemPrompt, transport);
      if Alternating(before) {
        SendPreservesAlternating(before, text, transport(Request(cli.baseUrl, cli.headers,
          BuildPayload(before, text, model, maxTokens, systemPrompt))));
      }
  }
}
