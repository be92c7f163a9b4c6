/** Ordering maintenance of the chat list: lookup by id, removal by id, and
    the move-to-front rule used by `addNewChat` and `updateChatLastMessage`. */
module ChatList {
  import opened Wrappers
  import opened ChatTypes

  /** No two entries of the list share an identifier. */
  ghost predicate UniqueIds(chats: seq<Chat>) {
    forall i, j :: 0 <= i < j < |chats| ==> chats[i].id != chats[j].id
  }

  /** Some entry of the list has identifier `id`. */
  ghost predicate HasId(chats: seq<Chat>, id: Id) {
    exists i :: 0 <= i < |chats| && chats[i].id == id
  }

  /** The number of entries whose identifier is `id`. */
  function CountId(chats: seq<Chat>, id: Id): nat {
    if chats == [] then 0
    else (if chats[0].id == id then 1 else 0) + CountId(chats[1..], id)
  }

  /** `Array.prototype.findIndex` by id: the first matching position, or -1. */
  function FindIndex(chats: seq<Chat>, id: Id): (r: int)
    ensures -1 <= r < |chats|
    ensures r == -1 <==> !HasId(chats, id)
    ensures r != -1 ==> chats[r].id == id && forall i :: 0 <= i < r ==> chats[i].id != id
  {
    if chats == [] then -1
    else if chats[0].id == id then 0
    else
      var k := FindIndex(chats[1..], id);
      assert forall i :: 1 <= i < |chats| ==> chats[i] == chats[1..][i - 1];
      if k == -1 then -1 else k + 1
  }

  /** `Array.prototype.find` by id: the first matching entry, if any. */
  function Find(chats: seq<Chat>, id: Id): (r: Option<Chat>)
    ensures r.None? <==> !HasId(chats, id)
    ensures r.Some? ==> r.value == chats[FindIndex(chats, id)]
  {
    if chats == [] then None
    else if chats[0].id == id then Some(chats[0])
    else
      assert forall i :: 1 <= i < |chats| ==> chats[i] == chats[1..][i - 1];
      Find(chats[1..], id)
  }

  /** `chats.filter(c => c._id !== id)`. */
  function Without(chats: seq<Chat>, id: Id): (r: seq<Chat>)
    ensures |r| == |chats| - CountId(chats, id)
    ensures forall c :: c in r <==> c in chats && c.id != id
    ensures !HasId(r, id)
  {
    if chats == [] then []
    else if chats[0].id == id then Without(chats[1..], id)
    else [chats[0]] + Without(chats[1..], id)
  }

  /** Move-to-front with replace (`addNewChat`, use-chat.ts): `newChat` goes to
      position 0 and every stored entry with its id is dropped. */
  function MoveToFront(chats: seq<Chat>, newChat: Chat): (r: seq<Chat>)
    ensures |r| > 0 && r[0] == newChat
    ensures r[1..] == Without(chats, newChat.id)
    ensures |r| == |chats| + 1 - CountId(chats, newChat.id)
    ensures forall c :: c in r <==> c == newChat || (c in chats && c.id != newChat.id)
    ensures UniqueIds(chats) ==> UniqueIds(r)
    ensures UniqueIds(chats) && HasId(chats, newChat.id) ==> |r| == |chats|
    ensures !HasId(chats, newChat.id) ==> r == [newChat] + chats
  {
    if FindIndex(chats, newChat.id) != -1 then
      WithoutUnique(chats, newChat.id);
      CountUnique(chats, newChat.id);
      [newChat] + Without(chats, newChat.id)
    else
      WithoutAbsent(chats, newChat.id);
      CountAbsent(chats, newChat.id);
      [newChat] + chats
  }

  /** `updateChatLastMessage` on the list: the first chat with identifier `id`
      gets `lastMessage := m` and moves to the front; an unknown id is a no-op. */
  function UpdateLastMessage(chats: seq<Chat>, id: Id, m: Message): (r: seq<Chat>)
    ensures !HasId(chats, id) ==> r == chats
    ensures HasId(chats, id) ==>
      && |r| > 0
      && r[0] == chats[FindIndex(chats, id)].(lastMessage := Some(m))
      && r[0].id == id
      && r[1..] == Without(chats, id)
      && r == MoveToFront(chats, chats[FindIndex(chats, id)].(lastMessage := Some(m)))
    ensures UniqueIds(chats) ==> UniqueIds(r) && |r| == |chats|
  {
    var found := Find(chats, id);
    if found.None? then chats
    else
      var updated := found.value.(lastMessage := Some(m));
      var r := [updated] + Without(chats, id);
      assert r == MoveToFront(chats, updated);
      r
  }

  /** Move-to-front never loses an identifier that was in the list. */
  lemma MoveToFrontKeepsIds(chats: seq<Chat>, newChat: Chat)
    ensures forall i :: 0 <= i < |chats| ==> HasId(MoveToFront(chats, newChat), chats[i].id)
  {
    var r := MoveToFront(chats, newChat);
    forall i | 0 <= i < |chats|
      ensures HasId(r, chats[i].id)
    {
      if chats[i].id == newChat.id {
        assert r[0].id == chats[i].id;
      } else {
        assert chats[i] in r;
        var j :| 0 <= j < |r| && r[j] == chats[i];
        assert r[j].id == chats[i].id;
      }
    }
  }

  // ---------------------------------------------------------------------
  // Lemmas about removal by id

  /** Counting and presence agree. */
  lemma {:induction false} CountAbsent(chats: seq<Chat>, id: Id)
    ensures CountId(chats, id) == 0 <==> !HasId(chats, id)
  {
    if chats != [] {
      CountAbsent(chats[1..], id);
      assert forall i :: 1 <= i < |chats| ==> chats[i] == chats[1..][i - 1];
      if chats[0].id != id && HasId(chats, id) {
        var i :| 0 <= i < |chats| && chats[i].id == id;
        assert chats[1..][i - 1].id == id;
      }
    }
  }

  /** With unique ids a present id occurs exactly once. */
  lemma CountUnique(chats: seq<Chat>, id: Id)
    ensures UniqueIds(chats) && HasId(chats, id) ==> CountId(chats, id) == 1
  {
    if UniqueIds(chats) && HasId(chats, id) {
      CountUniqueStep(chats, id);
    }
  }

  lemma {:induction false} CountUniqueStep(chats: seq<Chat>, id: Id)
    requires UniqueIds(chats) && HasId(chats, id)
    ensures CountId(chats, id) == 1
  {
    assert forall i :: 1 <= i < |chats| ==> chats[i] == chats[1..][i - 1];
    if chats[0].id == id {
      CountAbsent(chats[1..], id);
    } else {
      var i :| 0 <= i < |chats| && chats[i].id == id;
      assert chats[1..][i - 1].id == id;
      CountUniqueStep(chats[1..], id);
    }
  }

  /** Removing an id that is not there changes nothing. */
  lemma {:induction false} WithoutAbsent(chats: seq<Chat>, id: Id)
    requires !HasId(chats, id)
    ensures Without(chats, id) == chats
  {
    if chats != [] {
      assert chats[0].id != id;
      assert forall i :: 1 <= i < |chats| ==> chats[i] == chats[1..][i - 1];
      WithoutAbsent(chats[1..], id);
      assert chats == [chats[0]] + chats[1..];
    }
  }

  /** Prepending a chat whose id is not in a unique list keeps it unique. */
  lemma ConsUnique(c: Chat, chats: seq<Chat>)
    requires UniqueIds(chats) && !HasId(chats, c.id)
    ensures UniqueIds([c] + chats)
  {
    var r := [c] + chats;
    forall i, j | 0 <= i < j < |r|
      ensures r[i].id != r[j].id
    {
      assert r[j] == chats[j - 1];
      if i > 0 {
        assert r[i] == chats[i - 1];
      }
    }
  }

  /** Removal keeps a unique list unique, and the removed id is gone. */
  lemma WithoutUnique(chats: seq<Chat>, id: Id)
    ensures UniqueIds(chats) ==> UniqueIds(Without(chats, id))
  {
    if UniqueIds(chats) {
      WithoutUniqueStep(chats, id);
    }
  }

  lemma {:induction false} WithoutUniqueStep(chats: seq<Chat>, id: Id)
    requires UniqueIds(chats)
    ensures UniqueIds(Without(chats, id))
  {
    if chats != [] {
      var tail := chats[1..];
      assert forall i :: 1 <= i < |chats| ==> chats[i] == tail[i - 1];
      WithoutUniqueStep(tail, id);
      if chats[0].id != id {
        var w := Without(tail, id);
        forall i | 0 <= i < |w|
          ensures w[i].id != chats[0].id
        {
          assert w[i] in tail;
          var j :| 0 <= j < |tail| && tail[j] == w[i];
          assert chats[j + 1] == w[i];
        }
        ConsUnique(chats[0], w);
      }
    }
  }

  /** Removal distributes over concatenation: the survivors keep their
      original relative order. */
  lemma {:induction false} WithoutConcat(a: seq<Chat>, b: seq<Chat>, id: Id)
    ensures Without(a + b, id) == Without(a, id) + Without(b, id)
  {
    if a == [] {
      assert a + b == b;
    } else {
      assert (a + b)[0] == a[0];
      assert (a + b)[1..] == a[1..] + b;
      WithoutConcat(a[1..], b, id);
    }
  }

  /** In a unique list, removing the id found at `k` removes exactly that entry. */
  lemma {:induction false} WithoutAt(chats: seq<Chat>, k: nat, id: Id)
    requires UniqueIds(chats) && k < |chats| && chats[k].id == id
    ensures Without(chats, id) == chats[..k] + chats[k + 1..]
  {
    var tail := chats[1..];
    assert forall i :: 1 <= i < |chats| ==> chats[i] == tail[i - 1];
    if k == 0 {
      forall i | 0 <= i < |tail|
        ensures tail[i].id != id
      {
        assert chats[i + 1] == tail[i];
      }
      WithoutAbsent(tail, id);
      assert chats[..0] + chats[1..] == tail;
    } else {
      assert UniqueIds(tail);
      WithoutAt(tail, k - 1, id);
      assert chats[..k] == [chats[0]] + tail[..k - 1];
      assert chats[k + 1..] == tail[k..];
    }
  }

  /** Example: in a unique list `[A, B, C]`, updating B's
      last message yields `[B', A, C]` — the updated chat first, then all the
      others in their original order. */
  lemma UpdateMovesToFront(chats: seq<Chat>, k: nat, m: Message)
    requires UniqueIds(chats) && k < |chats|
    ensures UpdateLastMessage(chats, chats[k].id, m)
         == [chats[k].(lastMessage := Some(m))] + chats[..k] + chats[k + 1..]
  {
    var id := chats[k].id;
    assert HasId(chats, id);
    var f := FindIndex(chats, id);
    assert f == k;
    WithoutAt(chats, k, id);
  }
}
