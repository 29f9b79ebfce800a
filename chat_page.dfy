/** The chat page: the conversation shown to the user, the text being
    typed and whether a send is in progress, and what sending a message
    does to them while the reply streams in. */
module ChatPage {
  import opened Wrappers

  datatype Role = User | Assistant

  datatype Message = Message(role: Role, content: string)

  const Greeting: string :=
    "Marhaba! I'm your Arabic language partner. I can help you learn how to speak and understand Levantine Arabic, also known as Shami. Let's start with some basic greetings! How can I assist you today?"

  const Apology: string := "I'm sorry, but I encountered an error. Please try again later."

  /** A simplified stand-in for the characters that trimming removes. */
  predicate IsWhitespace(c: char) {
    c == ' ' || c == '\t' || c == '\n' || c == '\r' || c == '\U{B}' || c == '\U{C}'
    || c == '\U{A0}' || c == '\U{FEFF}' || c == '\U{2028}' || c == '\U{2029}'
  }

  /** The text trims to nothing. */
  predicate IsBlank(s: string) {
    forall i | 0 <= i < |s| :: IsWhitespace(s[i])
  }

  /** The conversation with the user's turn and an empty assistant turn
      appended, ready to receive the reply. */
  function WithTurn(messages: seq<Message>, text: string): (r: seq<Message>)
    ensures |r| == |messages| + 2
    ensures r[..|messages|] == messages
    ensures r[|messages|] == Message(User, text)
    ensures r[|messages| + 1] == Message(Assistant, "")
  {
    messages + [Message(User, text), Message(Assistant, "")]
  }

  /** What is sent: the conversation as it stood plus the user's turn. */
  function RequestBody(messages: seq<Message>, text: string): (r: seq<Message>)
    // everything the page shows after the append except the placeholder
    ensures r == WithTurn(messages, text)[..|messages| + 1]
  {
    messages + [Message(User, text)]
  }

  /** The conversation with the last turn's content replaced by the reply
      received so far; its role is kept. */
  function WithReply(messages: seq<Message>, reply: string): (r: seq<Message>)
    requires |messages| > 0
    ensures |r| == |messages|
    ensures r[..|messages| - 1] == messages[..|messages| - 1]
    ensures r[|messages| - 1].role == messages[|messages| - 1].role
    ensures r[|messages| - 1].content == reply
  {
    var last := messages[|messages| - 1];
    messages[..|messages| - 1] + [last.(content := reply)]
  }

  /** The conversation with the apology appended after everything in it. */
  function WithApology(messages: seq<Message>): (r: seq<Message>)
    ensures |r| == |messages| + 1
    ensures r[..|messages|] == messages
    ensures r[|messages|] == Message(Assistant, Apology)
  {
    messages + [Message(Assistant, Apology)]
  }

  /** All chunks, in order, one after the other. */
  function Concat(chunks: seq<string>): string {
    if chunks == [] then "" else chunks[0] + Concat(chunks[1..])
  }

  /** Accumulating one more chunk at the end extends the concatenation. */
  lemma {:induction false} ConcatSnoc(chunks: seq<string>, chunk: string)
    ensures Concat(chunks + [chunk]) == Concat(chunks) + chunk
  {
    if chunks != [] {
      assert (chunks + [chunk])[1..] == chunks[1..] + [chunk];
      ConcatSnoc(chunks[1..], chunk);
    }
  }

  /** A later chunk overwrites what an earlier one wrote into the last turn. */
  lemma ReplyOverwrites(messages: seq<Message>, earlier: string, later: string)
    requires |messages| > 0
    ensures WithReply(WithReply(messages, earlier), later) == WithReply(messages, later)
  {
  }

  /** Writing a reply into a freshly appended turn gives the request body
      followed by the assistant's reply. */
  lemma ReplyFillsPlaceholder(messages: seq<Message>, text: string, reply: string)
    ensures WithReply(WithTurn(messages, text), reply)
         == RequestBody(messages, text) + [Message(Assistant, reply)]
  {
  }

  /** How the transport answers a send: the decoded chunks it delivers,
      and whether it then fails (a failure before any chunk has
      `chunks == []`). */
  datatype Delivery = Delivery(chunks: seq<string>, failed: bool)

  /** The conversation once a send has settled. */
  function Settled(messages: seq<Message>, text: string, delivery: Delivery): (r: seq<Message>)
    ensures |r| == |messages| + (if delivery.failed then 3 else 2)
    ensures r[..|messages|] == messages
    ensures r[|messages|] == Message(User, text)
    ensures r[|messages| + 1] == Message(Assistant, Concat(delivery.chunks))
    ensures delivery.failed ==> r[|messages| + 2] == Message(Assistant, Apology)
  {
    var answered := RequestBody(messages, text) + [Message(Assistant, Concat(delivery.chunks))];
    if delivery.failed then WithApology(answered) else answered
  }

  class ChatSession {
    var messages: seq<Message>
    var input: string
    var isLoading: bool
    /** The reply accumulated during the current send. */
    var reply: string
    /** The chunks received during the current send. */
    ghost var received: seq<string>

    ghost predicate Valid()
      reads this
    {
      |messages| > 0 && reply == Concat(received)
    }

    /** The page opens on the assistant's greeting, with nothing typed. */
    constructor ()
      ensures Valid()
      ensures messages == [Message(Assistant, Greeting)]
      ensures input == "" && !isLoading
    {
      messages := [Message(Assistant, Greeting)];
      input := "";
      isLoading := false;
      reply := "";
      received := [];
    }

    /** The user edits the text field. */
    method Edit(text: string)
      requires Valid()
      modifies this
      ensures Valid()
      ensures input == text
      ensures messages == old(messages) && isLoading == old(isLoading)
      ensures reply == old(reply) && received == old(received)
    {
      input := text;
    }

    /** Start a send: nothing happens for blank input or while a send is
        in progress; otherwise mark loading, clear the input, append the
        user's turn and an empty assistant turn, and return the request
        body, built from the conversation as it was. */
    method Begin() returns (request: Option<seq<Message>>)
      requires Valid()
      modifies this
      ensures Valid()
      ensures request.Some? <==> !IsBlank(old(input)) && !old(isLoading)
      ensures request.None? ==>
        && messages == old(messages) && input == old(input) && isLoading == old(isLoading)
        && reply == old(reply) && received == old(received)
      ensures request.Some? ==>
        && request.value == RequestBody(old(messages), old(input))
        && messages == WithTurn(old(messages), old(input))
        && input == "" && isLoading
        && reply == "" && received == []
    {
      if IsBlank(input) || isLoading {
        return None;
      }
      isLoading := true;
      var text, sent := input, messages;
      input := "";
      messages := WithTurn(messages, text);
      request := Some(RequestBody(sent, text));
      reply, received := "", [];
    }

    /** One decoded chunk arrives: accumulate it and show the reply so far
        in the last turn. */
    method AppendChunk(chunk: string)
      requires Valid()
      modifies this
      ensures Valid()
      ensures reply == old(reply) + chunk
      ensures received == old(received) + [chunk]
      ensures messages == WithReply(old(messages), reply)
      ensures input == old(input) && isLoading == old(isLoading)
    {
      ConcatSnoc(received, chunk);
      reply := reply + chunk;
      received := received + [chunk];
      messages := WithReply(messages, reply);
    }

    /** The request or the stream failed: append the apology. */
    method Fail()
      requires Valid()
      modifies this
      ensures Valid()
      ensures messages == WithApology(old(messages))
      ensures input == old(input) && isLoading == old(isLoading)
      ensures reply == old(reply) && received == old(received)
    {
      messages := WithApology(messages);
    }

    /** The send is over, whichever way it went. */
    method Finish()
      requires Valid()
      modifies this
      ensures Valid()
      ensures !isLoading
      ensures messages == old(messages) && input == old(input)
      ensures reply == old(reply) && received == old(received)
    {
      isLoading := false;
    }

    /** A whole send: start it, show each chunk as it arrives, apologise
        if the transport fails, and clear loading at the end. */
    method SendMessage(delivery: Delivery) returns (request: Option<seq<Message>>)
      requires Valid()
      modifies this
      ensures Valid()
      ensures request.Some? <==> !IsBlank(old(input)) && !old(isLoading)
      ensures request.None? ==>
        messages == old(messages) && input == old(input) && isLoading == old(isLoading)
      ensures request.Some? ==>
        && request.value == RequestBody(old(messages), old(input))
        && messages == Settled(old(messages), old(input), delivery)
        && reply == Concat(delivery.chunks)
        && input == "" && !isLoading
    {
      ghost var before, text := messages, input;
      request := Begin();
      if request.None? {
        return;
      }
      ReplyFillsPlaceholder(before, text, "");
      var i := 0;
      while i < |delivery.chunks|
        invariant 0 <= i <= |delivery.chunks|
        invariant Valid()
        invariant received == delivery.chunks[..i]
        invariant messages == RequestBody(before, text) + [Message(Assistant, reply)]
        invariant input == "" && isLoading
      {
        ReplyFillsPlaceholder(before, text, reply + delivery.chunks[i]);
        AppendChunk(delivery.chunks[i]);
        assert delivery.chunks[..i + 1] == delivery.chunks[..i] + [delivery.chunks[i]];
        i := i + 1;
      }
      assert delivery.chunks[..i] == delivery.chunks;
      if delivery.failed {
        Fail();
      }
      Finish();
    }
  }
}
