/**
 * The conversation text of a record (write_input_message and
 * write_output_message in app.py): one (role, text) pair for every content
 * block that has a "text" member, in message order and then block order.
 * Rendering each pair is not modelled; the pairs are collected in a list.
 */
module MessageText {
  import opened Wrappers
  import opened PyJson

  /** One text block to show: the role of its message and its text. */
  datatype TextBlock = TextBlock(role: string, text: Json)

  /** `role.upper()` succeeds only on a str; any other value has no such
      method.  The case mapping itself is not modelled: the role is kept
      as it is spelt in the record. */
  function RoleName(role: Json): (r: PyResult<string>)
    ensures r.Success? <==> role.JStr?
    ensures r.Success? ==> r.value == role.s
  {
    if role.JStr? then Success(role.s) else Failure(AttributeError)
  }

  /** Both results in order, or the first failure: the first one is
      computed before the second. */
  function Concat(a: PyResult<seq<TextBlock>>, b: PyResult<seq<TextBlock>>): (r: PyResult<seq<TextBlock>>)
    ensures r.Success? <==> a.Success? && b.Success?
    ensures r.Success? ==> r.value == a.value + b.value
    ensures a.Failure? ==> r == a
  {
    if a.Failure? then a else if b.Failure? then b else Success(a.value + b.value)
  }

  /** Collecting nothing and then r is r. */
  lemma ConcatEmpty(r: PyResult<seq<TextBlock>>)
    ensures Concat(Success([]), r) == r
  {
    if r.Success? {
      assert [] + r.value == r.value;
    }
  }

  /** Appending what one step collected to what came before it. */
  lemma ConcatShift(acc: seq<TextBlock>, more: seq<TextBlock>, rest: PyResult<seq<TextBlock>>)
    ensures Concat(Success(acc), Concat(Success(more), rest)) == Concat(Success(acc + more), rest)
  {
    if rest.Success? {
      assert acc + (more + rest.value) == (acc + more) + rest.value;
    }
  }

  // ----- the reference: which texts a conversation shows -----

  /** The "text" members of those blocks that are objects with one, in
      block order. */
  function TextsOf(blocks: seq<Json>): seq<Json>
  {
    if |blocks| == 0 then []
    else (match Get(blocks[0], "text") case Some(t) => [t] case None => []) + TextsOf(blocks[1..])
  }

  /** Each text paired with the role name. */
  function Labelled(name: string, texts: seq<Json>): seq<TextBlock>
  {
    seq(|texts|, i requires 0 <= i < |texts| => TextBlock(name, texts[i]))
  }

  /** The blocks of a message: its `content` list (anything else has no
      blocks with a text). */
  function ContentBlocks(message: Json): seq<Json>
  {
    match Get(message, "content")
    case Some(JArr(items)) => items
    case _ => []
  }

  /** The role of a message as a str ("" when it has none). */
  function RoleText(message: Json): string
  {
    match Get(message, "role")
    case Some(JStr(s)) => s
    case _ => ""
  }

  /** The texts a list of messages shows: message by message, each text
      block of a message labelled with that message's role. */
  function ExpectedTexts(messages: seq<Json>): seq<TextBlock>
  {
    if |messages| == 0 then []
    else Labelled(RoleText(messages[0]), TextsOf(ContentBlocks(messages[0]))) + ExpectedTexts(messages[1..])
  }

  /** Blocks that are all strings (the keys of a dict, the characters of a
      str) hold no texts. */
  lemma {:induction false} TextsOfStrings(blocks: seq<Json>)
    requires forall i :: 0 <= i < |blocks| ==> blocks[i].JStr?
    ensures TextsOf(blocks) == []
    decreases |blocks|
  {
    if |blocks| > 0 {
      TextsOfStrings(blocks[1..]);
    }
  }

  // ----- what the writers compute, with Python's exceptions -----

  /** Blocks the inner loop gets through without raising: `"text" in c` is
      defined for each block, and a block that passes it is an object (so
      `c["text"]` exists) of a message whose role is a str. */
  predicate BlocksShowable(role: Json, blocks: seq<Json>)
  {
    forall i :: 0 <= i < |blocks| ==>
      Contains(blocks[i], "text").Success? &&
      (Contains(blocks[i], "text").value ==> blocks[i].JObj? && role.JStr?)
  }

  /** The blocks are gone through one at a time: the first, then the rest. */
  lemma BlocksShowableStep(role: Json, blocks: seq<Json>)
    requires |blocks| > 0
    ensures BlocksShowable(role, blocks) <==>
      && Contains(blocks[0], "text").Success?
      && (Contains(blocks[0], "text").value ==> blocks[0].JObj? && role.JStr?)
      && BlocksShowable(role, blocks[1..])
  {
    if BlocksShowable(role, blocks[1..]) && Contains(blocks[0], "text").Success? {
      forall i | 0 < i < |blocks|
        ensures Contains(blocks[i], "text").Success?
      {
        assert blocks[i] == blocks[1..][i - 1];
      }
    }
  }

  /** One pass of the inner loop: `if "text" in c:` then `role.upper()` and
      `c["text"]`, giving the block's pair, or nothing for a block without a
      text. */
  function BlockText(role: Json, block: Json): (r: PyResult<seq<TextBlock>>)
    ensures r.Success? <==>
      Contains(block, "text").Success? && (Contains(block, "text").value ==> block.JObj? && role.JStr?)
    ensures r.Success? && Get(block, "text").Some? ==>
      role.JStr? && r.value == [TextBlock(role.s, Get(block, "text").value)]
    ensures r.Success? && Get(block, "text").None? ==> r.value == []
  {
    var hasText :- Contains(block, "text");
    if hasText then
      var name :- RoleName(role);
      var text :- Subscript(block, "text");
      Success([TextBlock(name, text)])
    else
      Success([])
  }

  /** The inner loop of both writers: a pair for each block that has a
      "text" member, with the role's name. */
  function BlockTexts(role: Json, blocks: seq<Json>): (r: PyResult<seq<TextBlock>>)
    ensures r.Success? <==> BlocksShowable(role, blocks)
    ensures r.Success? ==> |r.value| == |TextsOf(blocks)|
    ensures r.Success? ==>
      forall i :: 0 <= i < |r.value| ==> role == JStr(r.value[i].role) && r.value[i].text == TextsOf(blocks)[i]
    decreases |blocks|
  {
    if |blocks| == 0 then Success([])
    else
      BlocksShowableStep(role, blocks);
      Concat(BlockText(role, blocks[0]), BlockTexts(role, blocks[1..]))
  }

  /** One message: `message["role"]`, `message["content"]`, then its blocks. */
  function MessageTexts(message: Json): (r: PyResult<seq<TextBlock>>)
    ensures r.Success? ==> Get(message, "role").Some? && Get(message, "content").Some?
    ensures r.Success? ==> r.value == Labelled(RoleText(message), TextsOf(ContentBlocks(message)))
  {
    var role :- Subscript(message, "role");
    var content :- Subscript(message, "content");
    var blocks :- Iterate(content);
    var r := BlockTexts(role, blocks);
    if content.JArr? then r
    else
      TextsOfStrings(blocks);
      r
  }

  /** The outer loop of write_input_message: message after message. */
  function MessagesTexts(messages: seq<Json>): (r: PyResult<seq<TextBlock>>)
    ensures r.Success? ==> r.value == ExpectedTexts(messages)
    decreases |messages|
  {
    if |messages| == 0 then Success([])
    else Concat(MessageTexts(messages[0]), MessagesTexts(messages[1..]))
  }

  /** write_input_message: the messages of an input body are
      `body["messages"]`. */
  function InputTexts(body: Json): (r: PyResult<seq<TextBlock>>)
    ensures r.Success? ==> Get(body, "messages").Some?
    ensures r.Success? && Get(body, "messages").value.JArr? ==>
      r.value == ExpectedTexts(Get(body, "messages").value.items)
    ensures r.Success? && !Get(body, "messages").value.JArr? ==> r.value == []
    ensures Get(body, "messages").Some? && (Get(body, "messages").value.JObj? || Get(body, "messages").value.JStr?)
            && Truthy(Get(body, "messages").value)
      ==> r == Failure(TypeError)
  {
    var messages :- Subscript(body, "messages");
    var items :- Iterate(messages);
    MessagesTexts(items)
  }

  /** write_output_message: the single message of an output body is
      `body["output"]["message"]`. */
  function OutputTexts(body: Json): (r: PyResult<seq<TextBlock>>)
    ensures r.Success? ==> GetPath(body, ["output", "message"]).Some?
    ensures r.Success? ==>
      var message := GetPath(body, ["output", "message"]).value;
      r.value == Labelled(RoleText(message), TextsOf(ContentBlocks(message)))
  {
    var output :- Subscript(body, "output");
    var message :- Subscript(output, "message");
    MessageTexts(message)
  }

  /** write_system on an input body: the text of the first `system` block,
      None when there is no `system` member, when it is empty or when its
      first block has no "text". */
  function SystemText(body: Json): (r: PyResult<Option<Json>>)
    ensures body.JObj? && Get(body, "system").None? ==> r == Success(None)
    ensures r.Success? && r.value.Some? ==>
      && Get(body, "system").Some? && Get(body, "system").value.JArr?
      && |Get(body, "system").value.items| > 0
      && r.value == Get(Get(body, "system").value.items[0], "text")
    ensures body.JObj? && Get(body, "system").Some? && Get(body, "system").value.JArr? ==>
      var blocks := Get(body, "system").value.items;
      (|blocks| == 0 ==> r == Success(None)) &&
      (|blocks| > 0 && blocks[0].JObj? ==> r == Success(Get(blocks[0], "text")))
  {
    var hasSystem :- Contains(body, "system");
    if !hasSystem then Success(None)
    else
      var system :- Subscript(body, "system");
      var isEmpty :- LenIsZero(system);
      if isEmpty then Success(None)
      else
        var first :- First(system);
        var hasText :- Contains(first, "text");
        if hasText then
          var text :- Subscript(first, "text");
          Success(Some(text))
        else Success(None)
  }

  // ----- when the writers show every text -----

  /** A message as Bedrock writes it: a str role and a list of content
      blocks that are all objects. */
  predicate WellFormedMessage(message: Json)
  {
    && Get(message, "role").Some? && Get(message, "role").value.JStr?
    && Get(message, "content").Some? && Get(message, "content").value.JArr?
    && forall i :: 0 <= i < |Get(message, "content").value.items| ==> Get(message, "content").value.items[i].JObj?
  }

  /** A well-formed message never raises. */
  lemma WellFormedMessageShows(message: Json)
    requires WellFormedMessage(message)
    ensures MessageTexts(message).Success?
  {
    var blocks := Get(message, "content").value.items;
    assert BlocksShowable(Get(message, "role").value, blocks);
  }

  /** Well-formed messages never raise, so every text of theirs is shown. */
  lemma {:induction false} WellFormedMessagesShow(messages: seq<Json>)
    requires forall i :: 0 <= i < |messages| ==> WellFormedMessage(messages[i])
    ensures MessagesTexts(messages) == Success(ExpectedTexts(messages))
    decreases |messages|
  {
    if |messages| > 0 {
      WellFormedMessageShows(messages[0]);
      WellFormedMessagesShow(messages[1..]);
    }
  }

  /** An input body whose `messages` is a list of well-formed messages shows
      exactly the expected texts. */
  lemma WellFormedInputShows(body: Json)
    requires Get(body, "messages").Some? && Get(body, "messages").value.JArr?
    requires forall i :: 0 <= i < |Get(body, "messages").value.items| ==>
               WellFormedMessage(Get(body, "messages").value.items[i])
    ensures InputTexts(body) == Success(ExpectedTexts(Get(body, "messages").value.items))
  {
    WellFormedMessagesShow(Get(body, "messages").value.items);
  }

  /** An output body whose `output.message` is well formed shows exactly
      that message's texts. */
  lemma WellFormedOutputShows(body: Json)
    requires GetPath(body, ["output", "message"]).Some?
    requires WellFormedMessage(GetPath(body, ["output", "message"]).value)
    ensures OutputTexts(body) == Success(ExpectedTexts([GetPath(body, ["output", "message"]).value]))
  {
    var output := Get(body, "output").value;
    var message := Get(output, "message").value;
    assert GetPath(body, ["output", "message"]) == Some(message);
    WellFormedMessageShows(message);
    assert [message][1..] == [];
    var texts := Labelled(RoleText(message), TextsOf(ContentBlocks(message)));
    assert ExpectedTexts([message]) == texts + [];
    assert texts + [] == texts;
  }

  // ----- the writers' loops -----

  /** The inner `for c in content` loop shared by both writers. */
  method CollectBlockTexts(role: Json, content: seq<Json>) returns (r: PyResult<seq<TextBlock>>)
    ensures r == BlockTexts(role, content)
  {
    var texts: seq<TextBlock> := [];
    var i := 0;
    assert content[0..] == content;
    ConcatEmpty(BlockTexts(role, content));
    while i < |content|
      invariant 0 <= i <= |content|
      invariant BlockTexts(role, content) == Concat(Success(texts), BlockTexts(role, content[i..]))
    {
      var c := content[i];
      assert content[i..][1..] == content[i + 1..];
      assert BlockTexts(role, content[i..]) == Concat(BlockText(role, c), BlockTexts(role, content[i + 1..]));
      var hasText :- Contains(c, "text");
      if hasText {
        var name :- RoleName(role);
        var text :- Subscript(c, "text");
        ConcatShift(texts, [TextBlock(name, text)], BlockTexts(role, content[i + 1..]));
        texts := texts + [TextBlock(name, text)];
      } else {
        ConcatEmpty(BlockTexts(role, content[i + 1..]));
      }
      i := i + 1;
    }
    assert texts + [] == texts;
    return Success(texts);
  }

  /** One message's `role`, `content` and text blocks. */
  method CollectMessageTexts(message: Json) returns (r: PyResult<seq<TextBlock>>)
    ensures r == MessageTexts(message)
  {
    var role :- Subscript(message, "role");
    var content :- Subscript(message, "content");
    var blocks :- Iterate(content);
    r := CollectBlockTexts(role, blocks);
  }

  /** write_input_message: `for message in messages`, then the blocks of
      each message. */
  method InputTextBlocks(body: Json) returns (r: PyResult<seq<TextBlock>>)
    ensures r == InputTexts(body)
  {
    var messages :- Subscript(body, "messages");
    var items :- Iterate(messages);
    var texts: seq<TextBlock> := [];
    var i := 0;
    assert items[0..] == items;
    ConcatEmpty(MessagesTexts(items));
    while i < |items|
      invariant 0 <= i <= |items|
      invariant MessagesTexts(items) == Concat(Success(texts), MessagesTexts(items[i..]))
    {
      assert items[i..][1..] == items[i + 1..];
      var more :- CollectMessageTexts(items[i]);
      ConcatShift(texts, more, MessagesTexts(items[i + 1..]));
      texts := texts + more;
      i := i + 1;
    }
    assert texts + [] == texts;
    return Success(texts);
  }

  /** write_output_message: the blocks of `body["output"]["message"]`. */
  method OutputTextBlocks(body: Json) returns (r: PyResult<seq<TextBlock>>)
    ensures r == OutputTexts(body)
  {
    var output :- Subscript(body, "output");
    var message :- Subscript(output, "message");
    r := CollectMessageTexts(message);
  }
}
