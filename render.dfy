/** The message fragment that the poll endpoint returns
    (handler/handlers.go:435-442): one chat bubble per message, in log order,
    marked "self" when the message was written by the viewer. */
module Render {
  import opened Models

  /** The CSS class of a message's bubble for a given viewer. */
  function ClassOf(msg: Message, viewerId: string): (c: string)
    ensures c == "self" <==> msg.userId == viewerId
    ensures c == "other" <==> msg.userId != viewerId
  {
    if msg.userId == viewerId then "self" else "other"
  }

  /** The fixed pieces of markup around the class, the author's name and the content. */
  const BubbleOpen: string := "<div class=\"chat-bubble "
  const NameOpen: string := "\"><strong>"
  const NameClose: string := ":</strong> "
  const BubbleClose: string := "</div>"

  function Bubble(cssClass: string, name: string, content: string): string {
    BubbleOpen + (cssClass + (NameOpen + (name + (NameClose + (content + BubbleClose)))))
  }

  /** The bubble of one message as seen by `viewerId`. */
  function Fragment(msg: Message, viewerId: string): string {
    Bubble(ClassOf(msg, viewerId), msg.userName, msg.content)
  }

  /** The opening tag of a bubble marked as the viewer's own. */
  const SelfOpening: string := "<div class=\"chat-bubble self\">"

  predicate IsSelfBubble(f: string) {
    |SelfOpening| <= |f| && f[..|SelfOpening|] == SelfOpening
  }

  /** The classification can be read off the rendered text. */
  lemma SelfMarkerIff(msg: Message, viewerId: string)
    ensures IsSelfBubble(Fragment(msg, viewerId)) <==> msg.userId == viewerId
  {
    var f := Fragment(msg, viewerId);
    var prefix := "<div class=\"chat-bubble ";
    assert f == prefix + ClassOf(msg, viewerId) + "\"><strong>" + msg.userName + ":</strong> " + msg.content + "</div>";
    if msg.userId != viewerId {
      assert f[|prefix|] == 'o';
      assert SelfOpening[|prefix|] == 's';
    }
  }

  /** The whole fragment for a log: the bubbles of all messages, left to right. */
  function RenderLog(msgs: seq<Message>, viewerId: string): string {
    if msgs == [] then ""
    else RenderLog(msgs[..|msgs| - 1], viewerId) + Fragment(msgs[|msgs| - 1], viewerId)
  }

  /** Joining a list of strings with no delimiter. */
  function Concat(parts: seq<string>): string {
    if parts == [] then "" else Concat(parts[..|parts| - 1]) + parts[|parts| - 1]
  }

  /** The i-th entry is the bubble of the i-th message. */
  function Fragments(msgs: seq<Message>, viewerId: string): (fs: seq<string>)
    ensures |fs| == |msgs|
    ensures forall i :: 0 <= i < |msgs| ==> fs[i] == Fragment(msgs[i], viewerId)
  {
    seq(|msgs|, i requires 0 <= i < |msgs| => Fragment(msgs[i], viewerId))
  }

  /** Exactly one fragment per message, in log order, and nothing else. */
  lemma {:induction false} RenderLogIsFragments(msgs: seq<Message>, viewerId: string)
    ensures RenderLog(msgs, viewerId) == Concat(Fragments(msgs, viewerId))
  {
    if msgs != [] {
      var n := |msgs|;
      RenderLogIsFragments(msgs[..n - 1], viewerId);
      assert Fragments(msgs, viewerId)[..n - 1] == Fragments(msgs[..n - 1], viewerId);
    }
  }

  /** Peeling the last message of `a + b` off the rendering. */
  lemma RenderLogLast(a: seq<Message>, b: seq<Message>, viewerId: string)
    requires b != []
    ensures RenderLog(a + b, viewerId) == RenderLog(a + b[..|b| - 1], viewerId) + Fragment(b[|b| - 1], viewerId)
  {
    assert (a + b)[..|a + b| - 1] == a + b[..|b| - 1];
  }

  /** Rendering distributes over concatenation of logs. */
  lemma {:induction false} RenderLogAppend(a: seq<Message>, b: seq<Message>, viewerId: string)
    ensures RenderLog(a + b, viewerId) == RenderLog(a, viewerId) + RenderLog(b, viewerId)
  {
    if b == [] {
      assert a + b == a;
    } else {
      var init, f := b[..|b| - 1], Fragment(b[|b| - 1], viewerId);
      var x, y := RenderLog(a, viewerId), RenderLog(init, viewerId);
      calc {
        RenderLog(a + b, viewerId);
        == { RenderLogLast(a, b, viewerId); }
        RenderLog(a + init, viewerId) + f;
        == { RenderLogAppend(a, init, viewerId); }
        (x + y) + f;
        ==
        x + (y + f);
        == { RenderLogLast([], b, viewerId); assert [] + b == b && [] + init == init; }
        x + RenderLog(b, viewerId);
      }
    }
  }

  /** The loop of `GetMessages` that accumulates the fragment. */
  method RenderMessages(msgs: seq<Message>, viewerId: string) returns (chatContent: string)
    ensures chatContent == RenderLog(msgs, viewerId)
  {
    chatContent := "";
    for i := 0 to |msgs|
      invariant chatContent == RenderLog(msgs[..i], viewerId)
    {
      var msg := msgs[i];
      var cssClass := "other";
      if msg.userId == viewerId {
        cssClass := "self";
      }
      chatContent := chatContent + Bubble(cssClass, msg.userName, msg.content);
      assert msgs[..i + 1][..i] == msgs[..i];
    }
    assert msgs[..|msgs|] == msgs;
  }
}
