/** The in-memory knowledge base: the list held under the "topics" key of the
    loaded JSON document, and the exact-topic lookup over it. */
module Knowledge {
  import opened Wrappers

  /** One `{"topic": ..., "answer": ...}` object of the list. */
  datatype Entry = Entry(topic: string, answer: string)

  /** The candidate list `[t["topic"] for t in knowledgeBase["topics"]]`: every entry's
      topic, in the order of the entries. */
  function Topics(kb: seq<Entry>): (ts: seq<string>)
    ensures |ts| == |kb|
    ensures forall i :: 0 <= i < |kb| ==> ts[i] == kb[i].topic
  {
    if kb == [] then [] else [kb[0].topic] + Topics(kb[1..])
  }

  /** Entry i is the earliest entry whose topic is exactly the question. */
  ghost predicate FirstWith(kb: seq<Entry>, question: string, i: int)
  {
    0 <= i < |kb| && kb[i].topic == question &&
    forall j :: 0 <= j < i ==> kb[j].topic != question
  }

  /** What `get_answer_for_question` returns: the answer of the first entry whose topic
      equals the question, or None when the scan runs off the end of the list. */
  function Lookup(kb: seq<Entry>, question: string): Option<string>
  {
    if kb == [] then None
    else if kb[0].topic == question then Some(kb[0].answer)
    else Lookup(kb[1..], question)
  }

  /** The earliest entry with the question as topic supplies the answer, so among entries
      sharing a topic the first one wins. */
  lemma {:induction false} LookupFirst(kb: seq<Entry>, question: string, i: int)
    requires FirstWith(kb, question, i)
    ensures Lookup(kb, question) == Some(kb[i].answer)
  {
    if i > 0 {
      LookupFirst(kb[1..], question, i - 1);
    }
  }

  /** The lookup answers None exactly when no entry has the question as its topic, and
      otherwise answers from the earliest such entry. */
  lemma {:induction false} LookupSpec(kb: seq<Entry>, question: string)
    ensures Lookup(kb, question).None? <==> question !in Topics(kb)
    ensures Lookup(kb, question).Some? ==>
      exists i :: FirstWith(kb, question, i) && Lookup(kb, question).value == kb[i].answer
  {
    if kb != [] {
      LookupSpec(kb[1..], question);
      assert Topics(kb) == [kb[0].topic] + Topics(kb[1..]);
      if kb[0].topic == question {
        assert FirstWith(kb, question, 0);
      } else if Lookup(kb, question).Some? {
        var i :| FirstWith(kb[1..], question, i) && Lookup(kb[1..], question).value == kb[1..][i].answer;
        assert FirstWith(kb, question, i + 1);
      }
    }
  }

  /** Appending an entry never changes the answer for a topic already present: the new
      entry is only reached for a topic no earlier entry has. */
  lemma {:induction false} LookupAppend(kb: seq<Entry>, e: Entry, question: string)
    ensures Lookup(kb + [e], question) ==
      if Lookup(kb, question).Some? then Lookup(kb, question)
      else if e.topic == question then Some(e.answer)
      else None
  {
    if kb == [] {
      assert kb + [e] == [e];
    } else {
      assert (kb + [e])[1..] == kb[1..] + [e];
      LookupAppend(kb[1..], e, question);
    }
  }

  /** `get_answer_for_question`: the `for` loop over the entries with its early return. */
  method GetAnswerForQuestion(question: string, kb: seq<Entry>) returns (r: Option<string>)
    ensures r == Lookup(kb, question)
  {
    var i := 0;
    while i < |kb|
      invariant 0 <= i <= |kb|
      invariant Lookup(kb[i..], question) == Lookup(kb, question)
    {
      if kb[i].topic == question {
        return Some(kb[i].answer);
      }
      assert kb[i..][1..] == kb[i + 1..];
      i := i + 1;
    }
    return None;
  }
}
