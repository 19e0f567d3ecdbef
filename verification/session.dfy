/** `chat_bot`: the interactive loop over the loaded knowledge base. One turn reads a
    question, stops on "quit", answers from the list on a fuzzy hit, and on a miss asks
    whether to research the question; a non-empty fetched text is appended as a new
    entry and the whole list is saved. */
module Session {
  import opened Wrappers
  import opened Text
  import opened Knowledge
  import opened Matching
  import opened Enricher

  /** `user_input.lower() == 'quit'`. */
  predicate IsQuit(s: string)
  {
    Lower(s) == "quit"
  }

  /** `new_answer.lower() == 'skip'`. */
  predicate IsSkip(s: string)
  {
    Lower(s) == "skip"
  }

  /** The branch a question takes before any reply is read. */
  datatype Decision = Quit | Hit(topic: string) | Miss

  /** The quit test, then the fuzzy match over the current topics; `if best_match:` is
      Python truthiness, so a match that is the empty string counts as a miss. */
  function Classify(kb: seq<Entry>, userInput: string, closeMatches: CloseMatches): Decision
  {
    if IsQuit(userInput) then Quit
    else match FindBestMatch(userInput, Topics(kb), closeMatches)
      case Some(t) => if t != "" then Hit(t) else Miss
      case None => Miss
  }

  /** What a turn shows the user. */
  datatype Outcome =
    | Ended                           // "quit": the loop stops
    | Answered(answer: Option<string>) // the stored answer of the matched topic
    | Skipped                         // "skip" at the research prompt
    | NotFound                        // the fetch gave None or empty text
    | Learned(text: string)           // the fetched text, now stored and saved

  /** The turn's outcome, the topic list after it, and whether the list was saved. */
  datatype StepResult = StepResult(outcome: Outcome, kb: seq<Entry>, saved: bool)

  /** One pass of the `while True` body. The reply to the research prompt is read only on
      a miss; on the other branches it is ignored. */
  function Step(kb: seq<Entry>, userInput: string, reply: string,
                closeMatches: CloseMatches, get: HttpGet): StepResult
  {
    match Classify(kb, userInput, closeMatches)
    case Quit => StepResult(Ended, kb, false)
    case Hit(t) => StepResult(Answered(Lookup(kb, t)), kb, false)
    case Miss =>
      if IsSkip(reply) then StepResult(Skipped, kb, false)
      else match Scrape(userInput, get)
        case Some(text) =>
          if text != "" then StepResult(Learned(text), kb + [Entry(userInput, text)], true)
          else StepResult(NotFound, kb, false)
        case None => StepResult(NotFound, kb, false)
  }

  /** "quit" ends the loop in any mix of small and capital letters, and nothing else does. */
  lemma QuitAnyCase(s: string)
    ensures IsQuit(s) <==>
      |s| == 4 && (s[0] == 'q' || s[0] == 'Q') && (s[1] == 'u' || s[1] == 'U') &&
      (s[2] == 'i' || s[2] == 'I') && (s[3] == 't' || s[3] == 'T')
  {
    LowerEqualsWord(s, "quit");
  }

  /** "skip" declines the research in any mix of small and capital letters, and nothing
      else does. */
  lemma SkipAnyCase(s: string)
    ensures IsSkip(s) <==>
      |s| == 4 && (s[0] == 's' || s[0] == 'S') && (s[1] == 'k' || s[1] == 'K') &&
      (s[2] == 'i' || s[2] == 'I') && (s[3] == 'p' || s[3] == 'P')
  {
    LowerEqualsWord(s, "skip");
  }

  /** A quit input ends the session and leaves the knowledge base as it was. */
  lemma StepQuit(kb: seq<Entry>, userInput: string, reply: string,
                 closeMatches: CloseMatches, get: HttpGet)
    ensures var s := Step(kb, userInput, reply, closeMatches, get);
      (s.outcome == Ended <==> IsQuit(userInput)) &&
      (IsQuit(userInput) ==> s.kb == kb && !s.saved)
  {
  }

  /** With a matcher that only reports candidates, a hit is always a stored topic, so
      `get_answer_for_question` on the match finds an answer; the list is neither changed nor saved. */
  lemma StepHitAnswers(kb: seq<Entry>, userInput: string, reply: string,
                       closeMatches: CloseMatches, get: HttpGet)
    requires SoundMatcher(closeMatches)
    requires Classify(kb, userInput, closeMatches).Hit?
    ensures var s := Step(kb, userInput, reply, closeMatches, get);
      s.outcome.Answered? && s.outcome.answer.Some? &&
      s.outcome.answer == Lookup(kb, Classify(kb, userInput, closeMatches).topic) &&
      s.kb == kb && !s.saved
  {
    LookupSpec(kb, Classify(kb, userInput, closeMatches).topic);
  }

  /** On a miss, "skip" in any letter case ends the turn with the list unchanged and unsaved. */
  lemma StepSkip(kb: seq<Entry>, userInput: string, reply: string,
                 closeMatches: CloseMatches, get: HttpGet)
    requires Classify(kb, userInput, closeMatches).Miss?
    requires |reply| == 4 && (reply[0] == 's' || reply[0] == 'S') && (reply[1] == 'k' || reply[1] == 'K')
    requires (reply[2] == 'i' || reply[2] == 'I') && (reply[3] == 'p' || reply[3] == 'P')
    ensures var s := Step(kb, userInput, reply, closeMatches, get);
      s.outcome == Skipped && s.kb == kb && !s.saved
  {
    SkipAnyCase(reply);
  }

  /** A turn learns exactly when the question missed, the reply was not "skip" and the fetch
      for the question's own address gave non-empty text; then that text is stored under the
      question, behind all earlier entries, and saved. Every other turn changes nothing and
      saves nothing. */
  lemma StepLearns(kb: seq<Entry>, userInput: string, reply: string,
                   closeMatches: CloseMatches, get: HttpGet)
    ensures var s := Step(kb, userInput, reply, closeMatches, get);
      s.outcome.Learned? <==>
        Classify(kb, userInput, closeMatches).Miss? && !IsSkip(reply) &&
        get(WikiUrl(userInput)).Some? && get(WikiUrl(userInput)).value != ""
    ensures var s := Step(kb, userInput, reply, closeMatches, get);
      s.outcome.Learned? ==>
        s.outcome.text == get(WikiUrl(userInput)).value && s.outcome.text != "" &&
        s.kb == kb + [Entry(userInput, s.outcome.text)] && s.saved
    ensures var s := Step(kb, userInput, reply, closeMatches, get);
      !s.outcome.Learned? ==> s.kb == kb && !s.saved
  {
  }

  /** After a learning turn an exact lookup of the question gives the fetched text, unless
      the question was already a topic: then the older entry keeps answering and the new one
      is never reached. */
  lemma LearnedAnswersExactQuery(kb: seq<Entry>, userInput: string, reply: string,
                                 closeMatches: CloseMatches, get: HttpGet)
    requires Step(kb, userInput, reply, closeMatches, get).outcome.Learned?
    ensures var s := Step(kb, userInput, reply, closeMatches, get);
      Lookup(s.kb, userInput) ==
        if userInput in Topics(kb) then Lookup(kb, userInput) else Some(s.outcome.text)
  {
    var s := Step(kb, userInput, reply, closeMatches, get);
    assert s.kb == kb + [Entry(userInput, s.outcome.text)];
    LookupAppend(kb, Entry(userInput, s.outcome.text), userInput);
    LookupSpec(kb, userInput);
  }

  /** From `loaded` to `kb` the list only grew at the end, every added entry has a non-empty
      answer, and the k-th save wrote the list as it stood after the k-th addition. */
  ghost predicate Grown(loaded: seq<Entry>, kb: seq<Entry>, saves: seq<seq<Entry>>)
  {
    loaded <= kb &&
    (forall i :: |loaded| <= i < |kb| ==> kb[i].answer != "") &&
    |saves| == |kb| - |loaded| &&
    forall k :: 0 <= k < |saves| ==> saves[k] == kb[..|loaded| + k + 1]
  }

  lemma GrownTrans(a: seq<Entry>, b: seq<Entry>, c: seq<Entry>,
                   sab: seq<seq<Entry>>, sbc: seq<seq<Entry>>)
    requires Grown(a, b, sab) && Grown(b, c, sbc)
    ensures Grown(a, c, sab + sbc)
  {
    forall k | 0 <= k < |sab + sbc| ensures (sab + sbc)[k] == c[..|a| + k + 1] {
      if k < |sab| {
        assert sab[k] == b[..|a| + k + 1];
      } else {
        assert sbc[k - |sab|] == c[..|b| + (k - |sab|) + 1];
      }
    }
  }

  /** Regrouping of the save log; a proof hint for `ChatBot.Advance`, whose context is too
      large for the solver to find it unaided. */
  lemma ConcatAssoc<T>(a: seq<T>, b: seq<T>, c: seq<T>)
    ensures (a + b) + c == a + (b + c)
  {
  }

  /** A single turn keeps the session's growth discipline. */
  lemma StepGrows(kb: seq<Entry>, userInput: string, reply: string,
                  closeMatches: CloseMatches, get: HttpGet)
    ensures var s := Step(kb, userInput, reply, closeMatches, get);
      Grown(kb, s.kb, if s.saved then [s.kb] else [])
  {
    var s := Step(kb, userInput, reply, closeMatches, get);
    if s.saved {
      assert s.kb[..|kb| + 0 + 1] == s.kb;
    }
  }

  /** How a session over the given input lines ends: the final list, the lists written by
      the saves in order, and whether it ended on "quit" (rather than at the end of input). */
  datatype SessionEnd = SessionEnd(kb: seq<Entry>, saves: seq<seq<Entry>>, quit: bool)

  /** The `while True` loop over a script of input lines, from line `next` on: each turn
      takes one line, and one more for the research prompt on a miss. */
  function Converse(kb: seq<Entry>, lines: seq<string>, next: nat,
                    closeMatches: CloseMatches, get: HttpGet): SessionEnd
    decreases |lines| - next
  {
    if next >= |lines| then SessionEnd(kb, [], false)
    else
      var d := Classify(kb, lines[next], closeMatches);
      if d.Quit? then SessionEnd(kb, [], true)
      else if d.Miss? && next + 1 == |lines| then SessionEnd(kb, [], false)
      else
        var reply := if d.Miss? then lines[next + 1] else "";
        var s := Step(kb, lines[next], reply, closeMatches, get);
        var rest := Converse(s.kb, lines, if d.Miss? then next + 2 else next + 1, closeMatches, get);
        SessionEnd(rest.kb, (if s.saved then [s.kb] else []) + rest.saves, rest.quit)
  }

  /** A session read from line i that neither quits nor runs out at once is the turn read
      there followed by the session from the next unread line. */
  lemma ConverseTurn(kb: seq<Entry>, lines: seq<string>, i: nat,
                     closeMatches: CloseMatches, get: HttpGet)
    requires i < |lines|
    requires !Classify(kb, lines[i], closeMatches).Quit?
    requires !(Classify(kb, lines[i], closeMatches).Miss? && i + 1 == |lines|)
    ensures var miss := Classify(kb, lines[i], closeMatches).Miss?;
      var s := Step(kb, lines[i], if miss then lines[i + 1] else "", closeMatches, get);
      var after := Converse(s.kb, lines, if miss then i + 2 else i + 1, closeMatches, get);
      Converse(kb, lines, i, closeMatches, get) ==
        SessionEnd(after.kb, (if s.saved then [s.kb] else []) + after.saves, after.quit)
  {
  }

  /** Over a whole session the knowledge base is append-only, every entry added has a
      non-empty answer, and there is exactly one save per added entry, each writing the
      list as it stood right after that addition. */
  lemma {:induction false} ConverseGrows(kb: seq<Entry>, lines: seq<string>, next: nat,
                                         closeMatches: CloseMatches, get: HttpGet)
    ensures var e := Converse(kb, lines, next, closeMatches, get); Grown(kb, e.kb, e.saves)
    decreases |lines| - next
  {
    if next < |lines| {
      var d := Classify(kb, lines[next], closeMatches);
      if !d.Quit? && !(d.Miss? && next + 1 == |lines|) {
        var reply := if d.Miss? then lines[next + 1] else "";
        var s := Step(kb, lines[next], reply, closeMatches, get);
        var after := if d.Miss? then next + 2 else next + 1;
        StepGrows(kb, lines[next], reply, closeMatches, get);
        ConverseGrows(s.kb, lines, after, closeMatches, get);
        var r := Converse(s.kb, lines, after, closeMatches, get);
        GrownTrans(kb, s.kb, r.kb, if s.saved then [s.kb] else [], r.saves);
      } else {
        assert Converse(kb, lines, next, closeMatches, get).kb == kb;
      }
    }
  }

  /** The session state: `knowledgeBase["topics"]` as loaded and then appended to, and a
      record of every list `save_knowledge_base` wrote. */
  class ChatBot {
    var topics: seq<Entry>
    var saves: seq<seq<Entry>>
    ghost var loaded: seq<Entry>

    ghost predicate Valid()
      reads this
    {
      Grown(loaded, topics, saves)
    }

    /** Starts from the list `load_knowledge_base` read; nothing has been saved yet. */
    constructor (kb: seq<Entry>)
      ensures Valid()
      ensures loaded == kb && topics == kb && saves == []
    {
      topics := kb;
      saves := [];
      loaded := kb;
    }

    /** `save_knowledge_base`: writes the whole current list. It is called right after an
        addition, when exactly one added entry has not been saved yet. */
    method Save()
      requires 0 < |topics|
      requires Grown(loaded, topics[..|topics| - 1], saves)
      requires topics[|topics| - 1].answer != ""
      modifies this`saves
      ensures Valid()
      ensures saves == old(saves) + [topics]
    {
      ghost var before := topics[..|topics| - 1];
      assert topics == before + [topics[|topics| - 1]];
      assert Grown(before, topics, [topics]) by {
        assert topics[..|before| + 0 + 1] == topics;
      }
      GrownTrans(loaded, before, topics, saves, [topics]);
      saves := saves + [topics];
    }

    /** One pass of the loop body of `chat_bot`. */
    method Turn(userInput: string, reply: string, closeMatches: CloseMatches, get: HttpGet)
      returns (o: Outcome)
      requires Valid()
      modifies this`topics, this`saves
      ensures Valid()
      ensures var s := Step(old(topics), userInput, reply, closeMatches, get);
        o == s.outcome && topics == s.kb &&
        saves == old(saves) + (if s.saved then [topics] else [])
    {
      StepGrows(topics, userInput, reply, closeMatches, get);
      ghost var s := Step(topics, userInput, reply, closeMatches, get);
      GrownTrans(loaded, topics, s.kb, saves, if s.saved then [s.kb] else []);
      if IsQuit(userInput) {
        return Ended;
      }
      var bestMatch := FindBestMatch(userInput, Topics(topics), closeMatches);
      if bestMatch.Some? && bestMatch.value != "" {
        var answer := GetAnswerForQuestion(bestMatch.value, topics);
        return Answered(answer);
      }
      if IsSkip(reply) {
        return Skipped;
      }
      var scraped := Scrape(userInput, get);
      if scraped.Some? && scraped.value != "" {
        ghost var before := topics;
        topics := topics + [Entry(userInput, scraped.value)];
        assert topics[..|topics| - 1] == before;
        Save();
        return Learned(scraped.value);
      }
      return NotFound;
    }

    /** Reads the turn that starts at line i of the script: stops on "quit" or when the
        script ends at the research prompt, and otherwise runs the turn and says where the
        next one starts. */
    method Advance(lines: seq<string>, i: nat, closeMatches: CloseMatches, get: HttpGet)
      returns (next: nat, stop: bool, quit: bool)
      requires Valid()
      requires i < |lines|
      modifies this`topics, this`saves
      ensures Valid()
      ensures stop <==> (Classify(old(topics), lines[i], closeMatches).Quit? ||
                         (Classify(old(topics), lines[i], closeMatches).Miss? && i + 1 == |lines|))
      ensures quit <==> Classify(old(topics), lines[i], closeMatches).Quit?
      ensures stop ==> (topics == old(topics) && saves == old(saves) &&
        Converse(topics, lines, i, closeMatches, get) == SessionEnd(topics, [], quit))
      ensures !stop ==> !quit && i < next <= |lines|
      ensures !stop ==>
        next == (if Classify(old(topics), lines[i], closeMatches).Miss? then i + 2 else i + 1)
      ensures !stop ==>
        var miss := Classify(old(topics), lines[i], closeMatches).Miss?;
        var s := Step(old(topics), lines[i], if miss then lines[i + 1] else "", closeMatches, get);
        topics == s.kb && saves == old(saves) + (if s.saved then [topics] else [])
      ensures !stop ==>
        var before := Converse(old(topics), lines, i, closeMatches, get);
        var after := Converse(topics, lines, next, closeMatches, get);
        before.kb == after.kb && before.quit == after.quit &&
        old(saves) + before.saves == saves + after.saves
    {
      var userInput := lines[i];
      var d := Classify(topics, userInput, closeMatches);
      if d.Quit? || (d.Miss? && i + 1 == |lines|) {
        return i, true, d.Quit?;
      }
      var reply := if d.Miss? then lines[i + 1] else "";
      next := if d.Miss? then i + 2 else i + 1;
      stop, quit := false, false;
      ConverseTurn(topics, lines, i, closeMatches, get);
      ghost var s := Step(topics, userInput, reply, closeMatches, get);
      ghost var added := if s.saved then [s.kb] else [];
      ghost var after := Converse(s.kb, lines, next, closeMatches, get);
      var o := Turn(userInput, reply, closeMatches, get);
      ConcatAssoc(old(saves), added, after.saves);
    }

    /** The `while True` loop of `chat_bot` over a script of input lines. It stops on
        "quit", or when the script runs out at either prompt. */
    method Run(lines: seq<string>, closeMatches: CloseMatches, get: HttpGet)
      returns (quit: bool)
      requires Valid()
      modifies this`topics, this`saves
      ensures Valid()
      ensures var e := Converse(old(topics), lines, 0, closeMatches, get);
        topics == e.kb && saves == old(saves) + e.saves && quit == e.quit
    {
      var i := 0;
      var done := false;
      quit := false;
      ghost var full := Converse(topics, lines, 0, closeMatches, get);
      while i < |lines| && !done
        invariant 0 <= i <= |lines|
        invariant Valid()
        invariant !done ==> !quit
        invariant done ==> Converse(topics, lines, i, closeMatches, get) == SessionEnd(topics, [], quit)
        invariant var rest := Converse(topics, lines, i, closeMatches, get);
          full.kb == rest.kb && full.quit == rest.quit && old(saves) + full.saves == saves + rest.saves
        decreases |lines| - i, if done then 0 else 1
      {
        var next;
        next, done, quit := Advance(lines, i, closeMatches, get);
        if !done {
          i := next;
        }
      }
    }
  }
}
