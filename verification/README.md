# Self-learning Wikipedia chatbot — Dafny model

The program is a console chatbot. It keeps a knowledge base of `{topic, answer}` entries in
`knowledgeBase.json`. It answers a question by fuzzy-matching it against the stored topics.
When nothing matches, it offers to look the question up on Wikipedia. Text it fetches is
appended to the knowledge base and the file is rewritten.

This project models the deterministic logic under that I/O:

- `wrappers.dfy` — `Option`, standing for a value or Python's `None`.
- `text.dfy` — `str.lower()` on ASCII, and which spellings a lower-cased comparison with a
  keyword accepts.
- `knowledge.dfy` — the entry list, the candidate list built from it, and
  `get_answer_for_question`. The lookup is a specification function `Lookup` with its
  first-match lemmas. The source's `for` loop is the method `GetAnswerForQuestion`, proved
  equal to `Lookup`.
- `matching.dfy` — `find_best_match`. The call to `difflib.get_close_matches` is an oracle
  parameter (`CloseMatches`). `SoundMatcher` states the one guarantee the program relies on:
  every reported match is a candidate.
- `enricher.dfy` — `scrape_topic_information` (main.py:25-37). `WikiUrl` is the article
  address it builds. The HTTP request and the paragraph extraction together are an oracle
  `HttpGet` from the address to the text; it returns `None` when the status is not 200.
  `Scrape` is the fetch outcome: the `HttpGet` result for `WikiUrl` of the topic. `Step` calls
  it with the user's original question (main.py:60).
- `session.dfy` — the `chat_bot` loop:
  - `Classify` and `Step` are the pure meaning of one turn, and `Converse` is the meaning of a
    whole session over a script of input lines.
  - The class `ChatBot` holds the mutable `topics` list and a log of what each save wrote.
    Its methods `Turn`, `Advance` and `Run` are proved against `Step` and `Converse`.
  - The object invariant `Valid()` (the predicate `Grown`) states the session's discipline:
    the list only grows at the end, every added answer is non-empty, and there is one save
    per addition, writing the list as it stood right after that addition.

Oracles, console input and file contents are parameters. The console lines are a
`seq<string>` script. A save is recorded as the list it wrote.

## Model

| member | source | states |
|---|---|---|
| Text.Lower | main.py:46 | `s.lower()` keeps the length and lower-cases each ASCII capital at its position, leaving every other character alone |
| Text.LowerEqualsWord | main.py:46-58 | comparing a lower-cased string with a lower-case keyword accepts exactly the spellings that put each letter in small or capital form, in both directions |
| Knowledge.Topics | main.py:49 | the candidate list has one topic per entry, in entry order |
| Knowledge.LookupFirst | main.py:19-22 | if entry i is the earliest with the question as topic, the lookup returns its answer, so the first of several duplicate topics wins |
| Knowledge.LookupSpec | main.py:19-23 | the lookup gives None exactly when no entry has the question as topic; otherwise it gives the answer of the earliest such entry |
| Knowledge.LookupAppend | main.py:19-22 | appending an entry never changes the answer for a topic already present; the new entry answers only a topic that was absent |
| Knowledge.GetAnswerForQuestion | main.py:19-23 | the scan with early return yields exactly the first-match lookup |
| Matching.FindBestMatch | main.py:15-17 | None exactly when the matcher reports no close match, otherwise its first match; with a sound matcher the result is one of the candidates |
| Enricher.Slug | main.py:26 | the address segment has the topic's length and no spaces; each space becomes `_` and every other character stays in place |
| Enricher.WikiUrl | main.py:26 | the address is `https://en.wikipedia.org/wiki/` followed by a segment of the topic's length with no spaces, in which each space of the topic is `_` and each other character is kept in place |
| Enricher.SlugKeepsSpaceFree | main.py:26 | a topic without spaces appears in the address unchanged |
| Enricher.SameAddressIff | main.py:26 | two topics fetch the same address exactly when they have equal length and differ only where one has a space and the other an underscore |
| Session.QuitAnyCase | main.py:46-47 | the loop ends exactly on "quit" with each letter written small or capital |
| Session.SkipAnyCase | main.py:56-58 | the research is declined exactly on "skip" with each letter written small or capital |
| Session.StepQuit | main.py:46-47 | a turn ends the session exactly when the input is "quit" in any case; then the list is unchanged and not saved |
| Session.StepHitAnswers | main.py:49-53 | with a matcher that reports only candidates, a hit answers with a stored answer (never None); the list is unchanged and not saved |
| Session.StepSkip | main.py:55-58 | after a miss, "skip" in any case ends the turn with the list unchanged and not saved |
| Session.StepLearns | main.py:58-67 | a turn appends exactly when the question missed, the reply was not "skip" and the fetch for the question's address gave non-empty text. It appends one entry {question, text} after all earlier entries and saves. Every other turn, including a fetch of None or of empty text, leaves the list unchanged and unsaved |
| Session.LearnedAnswersExactQuery | main.py:60-63 | after a learning turn, an exact lookup of the question gives the fetched text, unless the question was already a topic; then the older entry still answers |
| Session.StepGrows | main.py:60-64 | one turn only appends at the end, adds non-empty answers only, and saves once per addition, right after it |
| Session.ConverseGrows | main.py:42-67 | over a whole session the list is append-only and every added entry has a non-empty answer. There is exactly one save per addition, and the k-th save wrote the list with its first k additions |
| Session.ChatBot.constructor | main.py:40 | the session starts from the loaded list with nothing saved |
| Session.ChatBot.Save | main.py:63-64 | called with exactly one unsaved addition pending, a save records the whole current list, which restores the session invariant |
| Session.ChatBot.Turn | main.py:43-67 | one pass of the loop body leaves the outcome and list that `Step` gives, saves exactly when `Step` saves, and keeps the session invariant |
| Session.ChatBot.Advance | main.py:43-58 | a turn read from position i of the script either stops the session there (on "quit", or when the script ends at the research prompt), changing nothing, or runs exactly that turn: the list and save log become what `Step` gives for that line and its reply, and the next turn starts one line later after a hit and two lines later after a miss |
| Session.ChatBot.Run | main.py:42-67 | the loop over a script ends with the list, the saves and the quit flag that `Converse` gives, and keeps the session invariant |

## Left out

- `load_knowledge_base` and `save_knowledge_base` (main.py:6-13): file access and JSON. The
  loaded list is the constructor's argument, and a save is recorded as the list it wrote. A
  missing or malformed file, or a failing write, raises an exception the program does not
  catch. The model has no such failure.
- `requests.get` and the BeautifulSoup extraction (main.py:27-35): network and HTML parsing.
  They are the `HttpGet` oracle from the address to `Option<string>`. A page without paragraphs
  gives `Some("")`. A status other than 200 gives `None`, and the turn reports that nothing was
  found, as the program does (main.py:36-37, 67). An exception raised by the request itself (a
  connection error, a timeout) ends the program; the oracle never raises one, so that path is
  not modelled. Nor is the `AttributeError` raised when the page has no `mw-content-text`
  container.
- The similarity scoring of `difflib.get_close_matches` with `n=1` and cutoff 0.6
  (main.py:16): floating-point ratios inside a library. It is the `CloseMatches` oracle. Only
  the guarantee that matches are candidates (`SoundMatcher`) is assumed, and only where a lemma
  says so.
- Console output (`print`) is not modelled. A turn's `Outcome` says what would be shown.
- Console input is a script of lines. Reading past its end raises `EOFError` in the program;
  in the model the session ends without "quit".
- Session.ChatBot.Run: the `HttpGet` oracle is one function for the whole session (fixed in
  `Session.Converse`), so the same address gives the same result on every turn. The model does
  not capture a page that changes or a network that fails only sometimes.
- Text.Lower: models `str.lower()` on ASCII letters only. Python's full Unicode mapping also
  lower-cases the Kelvin sign (U+212A) to `k`, so the program also accepts as "skip" a reply
  whose `k` is that sign; the model does not.
- The program does not catch a failing save; the model's save always succeeds.
- `if best_match:` is Python truthiness, so a match that is the empty string is treated as a
  miss.
- Re-learning a question that is already a topic appends a duplicate, which the older entry
  shadows (`LearnedAnswersExactQuery`).
