/**
 * The transcript text: the recent history of a ticket without the messages
 * of bot accounts, one line per message, oldest first, joined by newlines,
 * and a placeholder when nothing is left. Writing it to a temporary file and
 * sending it are not part of this module.
 */
module Transcript {
  import opened Wrappers
  import opened Builtins
  import opened Platform

  /** How many messages the transcript fetches. */
  const TRANSCRIPT_LIMIT: nat := 100
  /** The text written when no message is left. */
  const EMPTY_TRANSCRIPT: string := "Sin mensajes."

  /** `[<time>] <tag>: <content>`; the time is the message's rendered `createdAt`. */
  function Line(m: Message): (line: string)
    ensures |line| > 0 && line[0] == '['
  {
    "[" + m.createdAt + "] " + m.author.tag + ": " + m.content
  }

  /** `filter(m => !m.author.bot)`. */
  function Humans(ms: seq<Message>): (r: seq<Message>)
    ensures |r| <= |ms|
    ensures forall i :: 0 <= i < |r| ==> !r[i].author.bot
  {
    if ms == [] then []
    else if ms[0].author.bot then Humans(ms[1..])
    else [ms[0]] + Humans(ms[1..])
  }

  /** The filter keeps exactly the messages whose author is not a bot. */
  lemma {:induction false} HumansMembers(ms: seq<Message>)
    ensures forall m :: m in Humans(ms) <==> m in ms && !m.author.bot
  {
    if ms != [] {
      HumansMembers(ms[1..]);
      assert ms == [ms[0]] + ms[1..];
    }
  }

  /** `map(Line)`. */
  function Lines(ms: seq<Message>): (r: seq<string>)
    ensures |r| == |ms|
    ensures forall i :: 0 <= i < |ms| ==> r[i] == Line(ms[i])
  {
    if ms == [] then [] else [Line(ms[0])] + Lines(ms[1..])
  }

  /** The chain `filter(...).map(...).reverse().join('\n')` over the fetched messages. */
  function Render(fetched: seq<Message>): string
  {
    Join(Reverse(Lines(Humans(fetched))), "\n")
  }

  /** `transcript || 'Sin mensajes.'`: the text that reaches the file. */
  function FileText(fetched: seq<Message>): (text: string)
    ensures text == EMPTY_TRANSCRIPT <==> Humans(fetched) == []
    ensures Humans(fetched) != [] ==> text == Render(fetched)
  {
    var t := Render(fetched);
    JoinOfLines(Reverse(Lines(Humans(fetched))));
    if t == "" then EMPTY_TRANSCRIPT else t
  }

  /** Joined lines that each begin with `[` are empty exactly when there are none, and begin with `[` otherwise. */
  lemma JoinOfLines(lines: seq<string>)
    requires forall i :: 0 <= i < |lines| ==> |lines[i]| > 0 && lines[i][0] == '['
    ensures lines == [] <==> Join(lines, "\n") == ""
    ensures lines != [] ==> |Join(lines, "\n")| > 0 && Join(lines, "\n")[0] == '['
  {
    if |lines| > 1 {
      assert Join(lines, "\n") == lines[0] + "\n" + Join(lines[1..], "\n");
    }
  }

  lemma {:induction false} HumansAppend(a: seq<Message>, b: seq<Message>)
    ensures Humans(a + b) == Humans(a) + Humans(b)
  {
    if a != [] {
      assert (a + b)[1..] == a[1..] + b;
      HumansAppend(a[1..], b);
    } else {
      assert a + b == b;
    }
  }

  lemma {:induction false} LinesAppend(a: seq<Message>, b: seq<Message>)
    ensures Lines(a + b) == Lines(a) + Lines(b)
  {
    assert forall i :: 0 <= i < |a + b| ==> Lines(a + b)[i] == (Lines(a) + Lines(b))[i];
  }

  /** Dropping bot messages commutes with reversing. */
  lemma {:induction false} HumansReverse(s: seq<Message>)
    ensures Humans(Reverse(s)) == Reverse(Humans(s))
  {
    if s != [] {
      var head, tail := [s[0]], s[1..];
      assert s == head + tail;
      calc {
        Humans(Reverse(s));
        { assert Reverse(s) == Reverse(tail) + head; }
        Humans(Reverse(tail) + head);
        { HumansAppend(Reverse(tail), head); }
        Humans(Reverse(tail)) + Humans(head);
        { HumansReverse(tail); }
        Reverse(Humans(tail)) + Humans(head);
        { assert Reverse(Humans(head)) == Humans(head); }
        Reverse(Humans(tail)) + Reverse(Humans(head));
        { ReverseAppend(Humans(head), Humans(tail)); }
        Reverse(Humans(head) + Humans(tail));
        { HumansAppend(head, tail); }
        Reverse(Humans(s));
      }
    }
  }

  lemma LinesReverse(s: seq<Message>)
    ensures Lines(Reverse(s)) == Reverse(Lines(s))
  {
    assert forall i :: 0 <= i < |s| ==> Lines(Reverse(s))[i] == Reverse(Lines(s))[i];
  }

  /**
   * The transcript of a history lists, oldest first, one line for each
   * message by a non-bot author among the last `TRANSCRIPT_LIMIT` messages.
   */
  lemma TranscriptIsChronological(history: seq<Message>)
    ensures Render(Recent(history, TRANSCRIPT_LIMIT)) == Join(Lines(Humans(Latest(history, TRANSCRIPT_LIMIT))), "\n")
  {
    var last := Latest(history, TRANSCRIPT_LIMIT);
    HumansReverse(last);
    LinesReverse(Humans(last));
    ReverseReverse(Lines(Humans(last)));
  }

  /** Messages by bot accounts never reach the transcript. */
  lemma BotsNeverListed(fetched: seq<Message>, m: Message)
    requires m in fetched && m.author.bot
    ensures m !in Humans(fetched)
  {
    HumansMembers(fetched);
  }

  /** A message posted by a bot leaves the transcript of the messages before it unchanged. */
  lemma BotMessageIgnored(ms: seq<Message>, m: Message)
    requires m.author.bot
    ensures Humans(ms + [m]) == Humans(ms)
  {
    HumansAppend(ms, [m]);
  }

  /** One more message takes one slot of the fetch window. */
  lemma LatestAppend(ms: seq<Message>, m: Message, limit: nat)
    requires limit > 0
    ensures Latest(ms + [m], limit) == Latest(ms, limit - 1) + [m]
  {
    var l := Latest(ms + [m], limit);
    assert l == l[..|l| - 1] + [m];
    assert l[..|l| - 1] == Latest(ms, limit - 1);
  }

  /**
   * A bot message posted last is left out of the transcript but still takes
   * a slot of the fetch: the transcript then covers the non-bot messages
   * among the `TRANSCRIPT_LIMIT - 1` messages before it.
   */
  lemma BotMessageTakesASlot(ms: seq<Message>, m: Message)
    requires m.author.bot
    ensures Render(Recent(ms + [m], TRANSCRIPT_LIMIT))
         == Join(Lines(Humans(Latest(ms, TRANSCRIPT_LIMIT - 1))), "\n")
  {
    TranscriptIsChronological(ms + [m]);
    LatestAppend(ms, m, TRANSCRIPT_LIMIT);
    BotMessageIgnored(Latest(ms, TRANSCRIPT_LIMIT - 1), m);
  }
}
