/** The speech worker's sentence accumulator (`convert_and_play`): replies
    taken from the queue are appended to a pending text, and the whole pending
    text goes to synthesis and playback as soon as it holds a sentence
    terminator. Synthesis and playback themselves are external and blocking;
    here they are the texts handed over, in order. */
module Speech {
  import opened Options

  /** The pending text holds `.`, `?` or `!`. */
  predicate HasTerminator(s: string)
  {
    '.' in s || '?' in s || '!' in s
  }

  /** The text an iteration handed to synthesis, or nothing. */
  function Text(said: Option<string>): string
  {
    if said.Some? then said.value else ""
  }

  /** The outcome of one iteration: what was spoken, and the pending text
      carried to the next iteration. */
  datatype Fed = Fed(said: Option<string>, pending: string)

  /** One iteration of the worker loop on one dequeued reply. Synthesis happens
      exactly when the pending text, with the reply appended, holds a
      terminator; it is given that entire text and the pending text becomes
      empty. Either way no character is lost or reordered, and what is carried
      over never holds a terminator. */
  function Step(pending: string, chunk: string): (r: Fed)
    ensures r.said.Some? <==> HasTerminator(pending + chunk)
    ensures r.said.Some? ==> r.pending == ""
    ensures Text(r.said) + r.pending == pending + chunk
    ensures !HasTerminator(r.pending)
  {
    var t := pending + chunk;
    if HasTerminator(t) then Fed(Some(t), "") else Fed(None, t)
  }

  /** The loop body of `convert_and_play` as code: append, test, speak. */
  method Feed(ttsText: string, chunk: string) returns (said: Option<string>, rest: string)
    ensures Fed(said, rest) == Step(ttsText, chunk)
  {
    rest := ttsText + chunk;
    if '.' in rest || '?' in rest || '!' in rest {
      said := Some(rest);
      rest := "";
    } else {
      said := None;
    }
  }

  /** All texts of `ts`, joined in order. */
  function Concat(ts: seq<string>): string
  {
    if ts == [] then "" else Concat(ts[..|ts| - 1]) + ts[|ts| - 1]
  }

  /** The state of the worker after a run of dequeued replies: every text
      handed to synthesis, in order, and the pending text. */
  datatype Drained = Drained(spoken: seq<string>, pending: string)

  /** The worker loop started with `pending` and fed `chunks` one at a time.
      At most one synthesis per reply, each spoken text holds a terminator,
      and after at least one reply the pending text holds none. */
  function Run(pending: string, chunks: seq<string>): (d: Drained)
    ensures |d.spoken| <= |chunks|
    ensures forall i :: 0 <= i < |d.spoken| ==> HasTerminator(d.spoken[i])
    ensures chunks != [] || !HasTerminator(pending) ==> !HasTerminator(d.pending)
  {
    if chunks == [] then Drained([], pending)
    else
      var d := Run(pending, chunks[..|chunks| - 1]);
      var s := Step(d.pending, chunks[|chunks| - 1]);
      Drained(d.spoken + (if s.said.Some? then [s.said.value] else []), s.pending)
  }

  /** Concat unfolded at a last element. */
  lemma ConcatSnoc(ts: seq<string>, t: string)
    ensures Concat(ts + [t]) == Concat(ts) + t
  {
    assert (ts + [t])[..|ts|] == ts;
  }

  /** Nothing is dropped or reordered: the spoken texts followed by the
      pending text are exactly the starting text followed by every reply. */
  lemma {:induction false} RunConservesText(pending: string, chunks: seq<string>)
    ensures Concat(Run(pending, chunks).spoken) + Run(pending, chunks).pending
         == pending + Concat(chunks)
  {
    if chunks == [] {
      assert pending + Concat(chunks) == pending;
    } else {
      var n := |chunks| - 1;
      RunConservesText(pending, chunks[..n]);
      ConservesStep(pending, chunks);
    }
  }

  /** Induction step of RunConservesText. */
  lemma ConservesStep(pending: string, chunks: seq<string>)
    requires chunks != []
    requires Concat(Run(pending, chunks[..|chunks| - 1]).spoken) + Run(pending, chunks[..|chunks| - 1]).pending
          == pending + Concat(chunks[..|chunks| - 1])
    ensures Concat(Run(pending, chunks).spoken) + Run(pending, chunks).pending
         == pending + Concat(chunks)
  {
    var n := |chunks| - 1;
    var d := Run(pending, chunks[..n]);
    var s := Step(d.pending, chunks[n]);
    var x, p, c := Concat(d.spoken), d.pending, chunks[n];
    Assoc(x, p, c);
    Assoc(pending, Concat(chunks[..n]), c);
    if s.said.Some? {
      assert s.said.value == p + c by {
        assert Text(s.said) + s.pending == Text(s.said);
      }
      ConcatSnoc(d.spoken, s.said.value);
      assert Run(pending, chunks).pending + "" == Run(pending, chunks).pending;
      assert Concat(Run(pending, chunks).spoken) == x + (p + c);
    } else {
      assert Run(pending, chunks).spoken == d.spoken;
      assert Text(s.said) + s.pending == s.pending;
    }
  }

  /** Concatenation of texts is associative. */
  lemma Assoc(a: string, b: string, c: string)
    ensures a + (b + c) == (a + b) + c
  {
  }

  /** The worker's only state is its pending text: feeding `a` and then `b`
      is feeding `b` to whatever `a` left pending. */
  lemma {:induction false} RunSplits(pending: string, a: seq<string>, b: seq<string>)
    ensures Run(pending, a + b)
         == Drained(Run(pending, a).spoken + Run(Run(pending, a).pending, b).spoken,
                    Run(Run(pending, a).pending, b).pending)
  {
    if b == [] {
      assert a + b == a;
    } else {
      var n := |b| - 1;
      assert (a + b)[..|a + b| - 1] == a + b[..n];
      RunSplits(pending, a, b[..n]);
    }
  }

  /** Replies without a terminator are held back, not spoken: they pile up in
      the pending text. */
  lemma {:induction false} UnterminatedRepliesWait(pending: string, chunks: seq<string>)
    requires !HasTerminator(pending)
    requires forall i :: 0 <= i < |chunks| ==> !HasTerminator(chunks[i])
    ensures Run(pending, chunks) == Drained([], pending + Concat(chunks))
  {
    if chunks == [] {
      assert pending + Concat(chunks) == pending;
    } else {
      var n := |chunks| - 1;
      UnterminatedRepliesWait(pending, chunks[..n]);
      WaitStep(pending + Concat(chunks[..n]), chunks[n]);
      Assoc(pending, Concat(chunks[..n]), chunks[n]);
    }
  }

  /** Step of UnterminatedRepliesWait: an unterminated reply joins an
      unterminated pending text. */
  lemma WaitStep(pending: string, chunk: string)
    requires !HasTerminator(pending) && !HasTerminator(chunk)
    ensures Step(pending, chunk) == Fed(None, pending + chunk)
  {
  }

  /** Starting from an empty pending text, replies that each hold a terminator
      are spoken one by one, each exactly as it was queued. */
  lemma {:induction false} TerminatedRepliesSpokenAlone(chunks: seq<string>)
    requires forall i :: 0 <= i < |chunks| ==> HasTerminator(chunks[i])
    ensures Run("", chunks) == Drained(chunks, "")
  {
    if chunks != [] {
      var n := |chunks| - 1;
      TerminatedRepliesSpokenAlone(chunks[..n]);
      SpokenAloneStep(chunks[n]);
      assert chunks[..n] + [chunks[n]] == chunks;
    }
  }

  /** Step of TerminatedRepliesSpokenAlone: a terminated reply on an empty
      pending text is spoken as it is. */
  lemma SpokenAloneStep(chunk: string)
    requires HasTerminator(chunk)
    ensures Step("", chunk) == Fed(Some(chunk), "")
  {
    assert "" + chunk == chunk;
  }

  /** Whenever a reply brings a terminator into the pending text, the next
      synthesis receives the entire pending text with the reply appended:
      text before the terminator from earlier replies, and text after it, all
      in one piece; afterwards nothing is pending. */
  lemma WholePendingTextIsSpoken(pending: string, chunks: seq<string>, c: string)
    requires HasTerminator(Run(pending, chunks).pending + c)
    ensures Run(pending, chunks + [c])
         == Drained(Run(pending, chunks).spoken + [Run(pending, chunks).pending + c], "")
  {
    assert (chunks + [c])[..|chunks|] == chunks;
  }

  /** A witness that synthesis is not once per sentence: a reply holding a
      terminator and more text after it is spoken once, whole, together with
      the unterminated reply before it. */
  lemma WholePendingTextExample()
    ensures Run("", ["Ok", ". Next"]) == Drained(["Ok. Next"], "")
  {
    var chunks := ["Ok", ". Next"];
    assert chunks[..1] == ["Ok"] && ["Ok"][..0] == [];
    assert Run("", ["Ok"]) == Drained([], "Ok");
    assert "Ok" + ". Next" == "Ok. Next";
    assert "Ok. Next"[2] == '.';
    assert Step("Ok", ". Next") == Fed(Some("Ok. Next"), "");
  }
}
