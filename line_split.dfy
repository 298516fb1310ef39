/**
 * Line framing for streamed response bodies. A body arrives as a sequence of
 * already-decoded text chunks; the buffered readers split their buffer on '\n',
 * handle every piece but the last, and carry the last one over to the next read.
 */
module LineSplit {
  import opened JsString

  /** The body received so far: the chunks in order, joined. */
  function Concat(chunks: seq<string>): string
    decreases |chunks|
  {
    if |chunks| == 0 then "" else Concat(chunks[..|chunks| - 1]) + chunks[|chunks| - 1]
  }

  /** `s.split('\n')` */
  function Lines(s: string): (r: seq<string>)
    ensures |r| >= 1
  {
    Split(s, '\n')
  }

  /** The pieces of `s` that a '\n' has terminated. */
  function CompleteLines(s: string): seq<string> {
    Init(Lines(s))
  }

  /** `lines.pop() || ''`: the unterminated tail that is carried over. */
  function Carry(s: string): string {
    Last(Lines(s))
  }

  /** The complete lines and the carry together give back the text they came from. */
  lemma CompleteLinesAndCarry(s: string)
    ensures Join(CompleteLines(s) + [Carry(s)], '\n') == s
  {
    JoinSplit(s, '\n');
    InitAndLast(Lines(s));
  }

  lemma InitAndLast(l: seq<string>)
    requires |l| > 0
    ensures Init(l) + [Last(l)] == l
  {
  }

  /** No complete line and no carry contains '\n'. */
  lemma LinesHaveNoNewline(s: string)
    ensures forall k :: 0 <= k < |CompleteLines(s)| ==> '\n' !in CompleteLines(s)[k]
    ensures '\n' !in Carry(s)
  {
    SplitPiecesHaveNoSeparator(s, '\n');
  }

  /**
   * Reading `chunk` into a buffer that holds `Carry(s)` completes exactly the
   * lines `s + chunk` has beyond those of `s`, and leaves the carry of `s + chunk`.
   */
  lemma {:induction false} CarryStep(s: string, chunk: string)
    ensures CompleteLines(s + chunk) == CompleteLines(s) + CompleteLines(Carry(s) + chunk)
    ensures Carry(s + chunk) == Carry(Carry(s) + chunk)
  {
    SplitConcat(s, chunk, '\n');
    var tail := Lines(Carry(s) + chunk);
    assert Lines(s + chunk) == CompleteLines(s) + tail;
    assert Init(CompleteLines(s) + tail) == CompleteLines(s) + Init(tail);
  }

  /**
   * Text after the last '\n' is never a complete line: when `s` is empty or ends
   * with '\n' and `t` has no '\n', `s + t` has the same complete lines as `s`.
   */
  lemma {:induction false} UnterminatedTailIgnored(s: string, t: string)
    requires s == "" || s[|s| - 1] == '\n'
    requires '\n' !in t
    ensures CompleteLines(s + t) == CompleteLines(s)
    ensures Carry(s + t) == t
  {
    CarryStep(s, t);
    if s == "" {
      assert Carry(s) == "";
    } else {
      SplitEndingInSeparator(s, '\n');
    }
    assert Carry(s) + t == t;
    SplitWithoutSeparator(t, '\n');
  }

  /** Reading one more chunk extends the body by that chunk. */
  lemma ConcatSnoc(chunks: seq<string>, i: nat)
    requires i < |chunks|
    ensures Concat(chunks[..i + 1]) == Concat(chunks[..i]) + chunks[i]
  {
    assert chunks[..i + 1][..i] == chunks[..i];
  }

  /** Concatenating two runs of chunks concatenates their bodies. */
  lemma {:induction false} ConcatAppend(a: seq<string>, b: seq<string>)
    ensures Concat(a + b) == Concat(a) + Concat(b)
    decreases |b|
  {
    if |b| == 0 {
      assert a + b == a;
    } else {
      var b', c := b[..|b| - 1], b[|b| - 1];
      assert (a + b)[..|a + b| - 1] == a + b' && (a + b)[|a + b| - 1] == c;
      ConcatAppend(a, b');
      assert Concat(a + b) == (Concat(a) + Concat(b')) + c;
      assert Concat(b) == Concat(b') + c;
    }
  }
}
