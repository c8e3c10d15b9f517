/**
 * `send_message` of app.py: a reply longer than Telegram's message limit is cut
 * into chunks at paragraph breaks. The HTTP posts are not modelled; the model
 * produces the sequence of texts that are posted, in order.
 */
module Chunking {
  import opened Wrappers
  import opened PythonStr

  /** `MAX_MESSAGE_LENGTH`, Telegram's limit on the length of one message. */
  const MaxMessageLength: nat := 4096

  /**
   * The text `current_chunk` holds once the paragraphs of `run` have been added
   * to it in order, each followed by `'\n\n'`.
   */
  function Flat(run: seq<string>): string {
    if run == [] then "" else run[0] + "\n\n" + Flat(run[1..])
  }

  lemma {:induction false} FlatAppend(a: seq<string>, b: seq<string>)
    ensures Flat(a + b) == Flat(a) + Flat(b)
    decreases |a|
  {
    if a == [] {
      assert a + b == b;
    } else {
      assert (a + b)[1..] == a[1..] + b;
      FlatAppend(a[1..], b);
      calc {
        Flat(a + b);
        a[0] + "\n\n" + Flat(a[1..] + b);
        a[0] + "\n\n" + (Flat(a[1..]) + Flat(b));
        (a[0] + "\n\n" + Flat(a[1..])) + Flat(b);
      }
    }
  }

  /** A run's text is the paragraphs joined by `'\n\n'`, plus a trailing `'\n\n'`. */
  lemma {:induction false} FlatJoin(ps: seq<string>)
    requires |ps| >= 1
    ensures Flat(ps) == Join(ps) + "\n\n"
    decreases |ps|
  {
    if |ps| > 1 {
      FlatJoin(ps[1..]);
    }
  }

  /** A run may be sent when its text is within the limit or it is a single paragraph. */
  predicate Fits(run: seq<string>) {
    |Flat(run)| <= MaxMessageLength || |run| == 1
  }

  /** The paragraphs of the runs, in order. */
  function Concat(runs: seq<seq<string>>): seq<string> {
    if runs == [] then [] else runs[0] + Concat(runs[1..])
  }

  /**
   * The runs the loop of `send_message` builds from the paragraphs `ps` when the
   * run `cur` is already in `current_chunk`: a run is closed when the next
   * paragraph would take the text over the limit and the run is not empty.
   * The runs cover `cur` and `ps` in order, none is empty, and each fits when
   * `cur` does.
   */
  function Group(ps: seq<string>, cur: seq<string>): (runs: seq<seq<string>>)
    ensures Concat(runs) == cur + ps
    ensures forall k :: 0 <= k < |runs| ==> runs[k] != []
    ensures Fits(cur) ==> forall k :: 0 <= k < |runs| ==> Fits(runs[k])
    decreases |ps|
  {
    if ps == [] then
      if cur == [] then [] else [cur]
    else if |Flat(cur) + ps[0] + "\n\n"| > MaxMessageLength && Flat(cur) != "" then
      var runs := [cur] + Group(ps[1..], [ps[0]]);
      assert runs[1..] == Group(ps[1..], [ps[0]]);
      assert cur + ps == cur + ([ps[0]] + ps[1..]);
      runs
    else
      FlatAppend(cur, [ps[0]]);
      assert Flat(cur) == "" ==> cur == [];
      assert cur + ps == (cur + [ps[0]]) + ps[1..];
      Group(ps[1..], cur + [ps[0]])
  }

  /** The runs of paragraphs that `send_message` sends, one chunk per run. */
  function Runs(ps: seq<string>): (runs: seq<seq<string>>)
    ensures Concat(runs) == ps
    ensures ps != [] ==> runs != []
    ensures forall k :: 0 <= k < |runs| ==> runs[k] != [] && Fits(runs[k])
  {
    assert Fits([]);
    Group(ps, [])
  }

  /** The first run `Group` closes starts with the first paragraph of `cur`. */
  lemma {:induction false} GroupHead(ps: seq<string>, cur: seq<string>)
    requires cur != []
    ensures Group(ps, cur) != [] && Group(ps, cur)[0] != [] && Group(ps, cur)[0][0] == cur[0]
    decreases |ps|
  {
    if ps != [] && !(|Flat(cur) + ps[0] + "\n\n"| > MaxMessageLength && Flat(cur) != "") {
      GroupHead(ps[1..], cur + [ps[0]]);
    }
  }

  /**
   * `Group` closes a run only when the next paragraph would take it over the
   * limit: each run, followed by the first paragraph of the next, is too long.
   */
  lemma {:induction false} GroupGreedy(ps: seq<string>, cur: seq<string>)
    ensures var runs := Group(ps, cur);
      forall k :: 0 <= k < |runs| - 1 ==> |Flat(runs[k]) + runs[k + 1][0] + "\n\n"| > MaxMessageLength
    decreases |ps|
  {
    var runs := Group(ps, cur);
    if ps == [] {
    } else if |Flat(cur) + ps[0] + "\n\n"| > MaxMessageLength && Flat(cur) != "" {
      var rest := Group(ps[1..], [ps[0]]);
      assert runs == [cur] + rest;
      GroupHead(ps[1..], [ps[0]]);
      GroupGreedy(ps[1..], [ps[0]]);
      forall k | 0 <= k < |runs| - 1
        ensures |Flat(runs[k]) + runs[k + 1][0] + "\n\n"| > MaxMessageLength
      {
        if k > 0 {
          assert runs[k] == rest[k - 1] && runs[k + 1] == rest[k];
        }
      }
    } else {
      assert runs == Group(ps[1..], cur + [ps[0]]);
      GroupGreedy(ps[1..], cur + [ps[0]]);
    }
  }

  /**
   * The runs are greedy: a run is sent only when the next paragraph would take
   * it over 4096 characters. With `Fits` and `Concat` this fixes the runs.
   */
  lemma RunsGreedy(ps: seq<string>)
    ensures var runs := Runs(ps);
      forall k :: 0 <= k < |runs| - 1 ==> |Flat(runs[k]) + runs[k + 1][0] + "\n\n"| > MaxMessageLength
  {
    assert Runs(ps) == Group(ps, []);
    GroupGreedy(ps, []);
  }

  /** The stripped text of each run, in order. */
  function StripAll(runs: seq<seq<string>>): (chunks: seq<string>)
    ensures |chunks| == |runs|
  {
    if runs == [] then [] else [Strip(Flat(runs[0]))] + StripAll(runs[1..])
  }

  lemma {:induction false} StripAllAt(runs: seq<seq<string>>, k: nat)
    requires k < |runs|
    ensures StripAll(runs)[k] == Strip(Flat(runs[k]))
    decreases k
  {
    if k > 0 {
      StripAllAt(runs[1..], k - 1);
    }
  }

  /**
   * The loop of `send_message` over the paragraphs `ps`, from the posted
   * `chunks` and the pending `current` text: the pair it ends with.
   */
  function Loop(ps: seq<string>, chunks: seq<string>, current: string): (seq<string>, string)
    decreases |ps|
  {
    if ps == [] then
      (chunks, current)
    else if |current + ps[0] + "\n\n"| > MaxMessageLength && current != "" then
      Loop(ps[1..], chunks + [Strip(current)], ps[0] + "\n\n")
    else
      Loop(ps[1..], chunks, current + ps[0] + "\n\n")
  }

  /**
   * The loop's end state when it meets the runs in turn: every run but the
   * last is posted stripped after `chunks`, and the last run's text is pending.
   */
  function Drain(chunks: seq<string>, runs: seq<seq<string>>): (seq<string>, string)
    requires runs != []
    decreases |runs|
  {
    if |runs| == 1 then (chunks, Flat(runs[0])) else Drain(chunks + [Strip(Flat(runs[0]))], runs[1..])
  }

  lemma {:induction false} DrainPosts(chunks: seq<string>, runs: seq<seq<string>>)
    requires runs != []
    ensures Drain(chunks, runs) == (chunks + StripAll(runs[..|runs| - 1]), Flat(runs[|runs| - 1]))
    decreases |runs|
  {
    if |runs| == 1 {
      assert chunks + StripAll([]) == chunks;
    } else {
      var rest := runs[1..];
      DrainPosts(chunks + [Strip(Flat(runs[0]))], rest);
      assert runs[..|runs| - 1] == [runs[0]] + rest[..|rest| - 1];
      assert StripAll(runs[..|runs| - 1]) == [Strip(Flat(runs[0]))] + StripAll(rest[..|rest| - 1]);
      assert chunks + [Strip(Flat(runs[0]))] + StripAll(rest[..|rest| - 1]) == chunks + StripAll(runs[..|runs| - 1]);
    }
  }

  /**
   * The loop posts one chunk per closed run: from the pending run `cur`, it
   * ends in the state that draining `Group(ps, cur)` gives.
   */
  lemma {:induction false} LoopGroup(ps: seq<string>, chunks: seq<string>, cur: seq<string>)
    requires cur != [] || ps != []
    ensures Group(ps, cur) != [] && Loop(ps, chunks, Flat(cur)) == Drain(chunks, Group(ps, cur))
    decreases |ps|
  {
    var runs := Group(ps, cur);
    assert Concat(runs) != [];
    if ps == [] {
      assert runs == [cur];
    } else if |Flat(cur) + ps[0] + "\n\n"| > MaxMessageLength && Flat(cur) != "" {
      var rest := Group(ps[1..], [ps[0]]);
      LoopGroup(ps[1..], chunks + [Strip(Flat(cur))], [ps[0]]);
      assert Flat([ps[0]]) == ps[0] + "\n\n";
      assert runs == [cur] + rest;
      assert runs[1..] == rest;
    } else {
      FlatAppend(cur, [ps[0]]);
      assert Flat([ps[0]]) == ps[0] + "\n\n";
      assert Flat(cur + [ps[0]]) == Flat(cur) + ps[0] + "\n\n";
      assert runs == Group(ps[1..], cur + [ps[0]]);
      assert Loop(ps, chunks, Flat(cur)) == Loop(ps[1..], chunks, Flat(cur + [ps[0]]));
      LoopGroup(ps[1..], chunks, cur + [ps[0]]);
    }
  }

  /**
   * `send_message` returns `response.json()` of its last post; when it posted
   * nothing, `response` is unbound and Python raises.
   */
  datatype SendError = ResponseUnbound

  /** After the loop: the pending text is posted, stripped, unless it is blank. */
  function Finish(state: (seq<string>, string)): Result<seq<string>, SendError> {
    var (chunks, current) := state;
    var sent := if Strip(current) != "" then chunks + [Strip(current)] else chunks;
    if sent == [] then Failure(ResponseUnbound) else Success(sent)
  }

  /** The texts `send_message(id, text)` posts, in order, or the error it raises. */
  function ChunksOf(text: string): Result<seq<string>, SendError> {
    if |text| <= MaxMessageLength then Success([text]) else Finish(Loop(Split(text), [], ""))
  }

  /** A text within the limit is posted once, unchanged. */
  lemma ShortTextSentWhole(text: string)
    requires |text| <= MaxMessageLength
    ensures ChunksOf(text) == Success([text])
  {
  }

  /** A longer text ends the loop with every run but the last posted, and the last pending. */
  lemma LongTextDrained(text: string)
    requires |text| > MaxMessageLength
    ensures var runs := Runs(Split(text));
      runs != [] && ChunksOf(text) == Finish((StripAll(runs[..|runs| - 1]), Flat(runs[|runs| - 1])))
  {
    var ps := Split(text);
    var runs := Runs(ps);
    assert runs == Group(ps, []) && Flat([]) == "";
    LoopGroup(ps, [], []);
    DrainPosts([], runs);
    assert [] + StripAll(runs[..|runs| - 1]) == StripAll(runs[..|runs| - 1]);
  }

  /**
   * A longer text is posted as the stripped runs of its paragraphs, in order:
   * every run but the last, then the last unless it is blank. Each chunk is
   * within the limit unless its run is a single paragraph.
   */
  lemma LongTextSentAsRuns(text: string)
    requires |text| > MaxMessageLength && ChunksOf(text).Success?
    ensures var runs := Runs(Split(text)); var chunks := ChunksOf(text).value;
      && (|chunks| == |runs| || |chunks| == |runs| - 1)
      && (|chunks| == |runs| <==> !Blank(Flat(runs[|runs| - 1])))
      && (forall k :: 0 <= k < |chunks| ==>
            chunks[k] == Strip(Flat(runs[k])) && (|chunks[k]| <= MaxMessageLength || |runs[k]| == 1))
  {
    var runs := Runs(Split(text));
    LongTextDrained(text);
    var closed := StripAll(runs[..|runs| - 1]);
    var last := Flat(runs[|runs| - 1]);
    StripEmptyIffBlank(last);
    var chunks := ChunksOf(text).value;
    assert chunks == if Strip(last) != "" then closed + [Strip(last)] else closed;
    forall k | 0 <= k < |chunks|
      ensures chunks[k] == Strip(Flat(runs[k])) && (|chunks[k]| <= MaxMessageLength || |runs[k]| == 1)
    {
      if k < |closed| {
        StripAllAt(runs[..|runs| - 1], k);
        assert runs[..|runs| - 1][k] == runs[k];
      }
      StripCuts(Flat(runs[k]));
      assert Fits(runs[k]);
    }
  }

  /** Whatever is cut, the runs together hold the whole text, followed by one `'\n\n'`. */
  lemma RunsCoverText(text: string)
    ensures Flat(Concat(Runs(Split(text)))) == text + "\n\n"
  {
    SplitJoin(text);
    FlatJoin(Split(text));
  }

  /** `send_message` raises only for a text over the limit that is all whitespace. */
  lemma ResponseUnboundOnlyForBlank(text: string)
    requires ChunksOf(text).Failure?
    ensures |text| > MaxMessageLength && Blank(text)
  {
    LongTextDrained(text);
    var runs := Runs(Split(text));
    assert |runs| == 1;
    StripEmptyIffBlank(Flat(runs[0]));
    assert Concat(runs) == runs[0];
    RunsCoverText(text);
    BlankAll(text + "\n\n");
    BlankAll(text);
    assert forall k :: 0 <= k < |text| ==> text[k] == (text + "\n\n")[k];
  }

  /** A text over the limit that is all whitespace and has no paragraph break does make it raise. */
  lemma LongBlankParagraphRaises(text: string)
    requires |text| > MaxMessageLength && Blank(text) && NoBreak(text)
    ensures ChunksOf(text) == Failure(ResponseUnbound)
  {
    LongTextDrained(text);
    var runs := Runs(Split(text));
    SplitJoin(text);
    assert Split(text) == [text];
    assert Concat(runs) == [text];
    assert runs == [[text]];
    assert StripAll(runs[..0]) == [];
    assert Flat([text]) == text + "\n\n";
    assert Blank("\n\n");
    BlankAppend(text, "\n\n");
    StripEmptyIffBlank(text + "\n\n");
  }

  /**
   * The loop of `send_message`: it posts what ChunksOf says, and fails exactly
   * when ChunksOf does.
   */
  method SendMessage(text: string) returns (sent: Result<seq<string>, SendError>)
    ensures sent == ChunksOf(text)
  {
    if |text| <= MaxMessageLength {
      return Success([text]);
    }
    var paragraphs := Split(text);
    var currentChunk := "";
    var chunks: seq<string> := [];
    for i := 0 to |paragraphs|
      invariant Loop(paragraphs[i..], chunks, currentChunk) == Loop(paragraphs, [], "")
    {
      var p := paragraphs[i];
      assert paragraphs[i..][0] == p && paragraphs[i..][1..] == paragraphs[i + 1..];
      if |currentChunk + p + "\n\n"| > MaxMessageLength && currentChunk != "" {
        chunks := chunks + [Strip(currentChunk)];
        currentChunk := p + "\n\n";
      } else {
        currentChunk := currentChunk + p + "\n\n";
      }
    }
    assert paragraphs[|paragraphs|..] == [];
    if Strip(currentChunk) != "" {
      chunks := chunks + [Strip(currentChunk)];
    }
    if chunks == [] {
      return Failure(ResponseUnbound);
    }
    return Success(chunks);
  }
}
