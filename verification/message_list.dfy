/** The open chat's message list: replacement in place by identifier, the
    `messages.map(msg => msg._id === tempId ? userMessage : msg)` of the
    send-confirmation step. */
module MessageList {
  import opened ChatTypes

  /** Some message of the list has identifier `id`. */
  ghost predicate HasMessageId(messages: seq<Message>, id: Id) {
    exists i :: 0 <= i < |messages| && messages[i].id == id
  }

  /** Every message with identifier `id` replaced by `replacement`, at the
      same position; the list never grows or shrinks. */
  function ReplaceById(messages: seq<Message>, id: Id, replacement: Message): (r: seq<Message>)
    ensures |r| == |messages|
    ensures forall i :: 0 <= i < |messages| ==>
      r[i] == (if messages[i].id == id then replacement else messages[i])
    ensures !HasMessageId(messages, id) ==> r == messages
    ensures replacement.id != id ==> !HasMessageId(r, id)
  {
    if messages == [] then []
    else
      var head := if messages[0].id == id then replacement else messages[0];
      var tail := ReplaceById(messages[1..], id, replacement);
      assert forall i :: 1 <= i < |messages| ==> messages[i] == messages[1..][i - 1];
      [head] + tail
  }

  /** Replacement acts on each part of a list separately. */
  lemma {:induction false} ReplaceConcat(a: seq<Message>, b: seq<Message>, id: Id, replacement: Message)
    ensures ReplaceById(a + b, id, replacement)
         == ReplaceById(a, id, replacement) + ReplaceById(b, id, replacement)
  {
    if a == [] {
      assert a + b == b;
    } else {
      assert (a + b)[0] == a[0];
      assert (a + b)[1..] == a[1..] + b;
      ReplaceConcat(a[1..], b, id, replacement);
    }
  }

  /** The pointwise description determines the result: any list that agrees
      with it entry by entry is the replacement. */
  lemma ReplaceUnique(messages: seq<Message>, expected: seq<Message>, id: Id, replacement: Message)
    requires |expected| == |messages|
    requires forall i :: 0 <= i < |messages| ==>
      expected[i] == (if messages[i].id == id then replacement else messages[i])
    ensures ReplaceById(messages, id, replacement) == expected
  {
  }

  /** An entry with a fresh id, appended and then replaced, ends as if the
      replacement had been appended in its place; entries after it stay. */
  lemma ReplaceFreshAppend(before: seq<Message>, temp: Message, after: seq<Message>, replacement: Message)
    requires !HasMessageId(before, temp.id)
    requires forall i :: 0 <= i < |after| ==> after[i].id != temp.id
    ensures ReplaceById(before + [temp] + after, temp.id, replacement) == before + [replacement] + after
  {
    var m := before + [temp] + after;
    var e := before + [replacement] + after;
    forall i | 0 <= i < |m|
      ensures e[i] == (if m[i].id == temp.id then replacement else m[i])
    {
      if i < |before| {
        assert m[i] == before[i] && e[i] == before[i];
      } else if i > |before| {
        assert m[i] == after[i - |before| - 1] && e[i] == after[i - |before| - 1];
      }
    }
    ReplaceUnique(m, e, temp.id, replacement);
  }

  /** When `id` occurs only at position `k`, exactly that entry is replaced. */
  lemma ReplaceAt(messages: seq<Message>, k: nat, id: Id, replacement: Message)
    requires k < |messages| && messages[k].id == id
    requires forall i :: 0 <= i < |messages| && i != k ==> messages[i].id != id
    ensures ReplaceById(messages, id, replacement)
         == messages[..k] + [replacement] + messages[k + 1..]
  {
    var r := ReplaceById(messages, id, replacement);
    var e := messages[..k] + [replacement] + messages[k + 1..];
    assert |r| == |e|;
    forall i | 0 <= i < |r|
      ensures r[i] == e[i]
    {
      if i < k {
        assert e[i] == messages[i];
      } else if i > k {
        assert e[i] == messages[k + 1..][i - k - 1];
      }
    }
  }

  /** Once the replacement carries a different id, replacing again by the
      same id is a no-op: a confirmation cannot be applied twice. */
  lemma ReplaceTwice(messages: seq<Message>, id: Id, first: Message, second: Message)
    requires first.id != id
    ensures ReplaceById(ReplaceById(messages, id, first), id, second)
         == ReplaceById(messages, id, first)
  {
  }
}
