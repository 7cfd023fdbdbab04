/** The chat message record of src/entities/message/model/types.ts. */
module Messages {
  datatype Role = User | Assistant

  /** `createdAt` is the opaque `Date.now()` value the message was built with. */
  datatype Message = Message(id: string, role: Role, content: string, isStreaming: bool, createdAt: int)

  /** No two messages share an id. */
  predicate DistinctIds(messages: seq<Message>) {
    forall i, j :: 0 <= i < j < |messages| ==> messages[i].id != messages[j].id
  }

  /** An id not used by any message yet, as `crypto.randomUUID` supplies. */
  predicate FreshId(messages: seq<Message>, id: string) {
    id != "" && forall i :: 0 <= i < |messages| ==> messages[i].id != id
  }

  /** `findIndex` by id: the first message with that id, or -1. */
  function FindIndex(messages: seq<Message>, id: string): (index: int)
    ensures -1 <= index < |messages|
    ensures index == -1 <==> forall k :: 0 <= k < |messages| ==> messages[k].id != id
    ensures index >= 0 ==> messages[index].id == id && forall k :: 0 <= k < index ==> messages[k].id != id
  {
    if |messages| == 0 then -1
    else if messages[0].id == id then 0
    else
      var index := FindIndex(messages[1..], id);
      if index == -1 then -1 else index + 1
  }

  /** With distinct ids, looking up a message's id finds that message. */
  lemma FindIndexOf(messages: seq<Message>, k: int)
    requires DistinctIds(messages) && 0 <= k < |messages|
    ensures FindIndex(messages, messages[k].id) == k
  {
  }

  /** Appending messages does not move a message that is already there. */
  lemma FindIndexAppend(messages: seq<Message>, extra: seq<Message>, id: string)
    requires FindIndex(messages, id) >= 0
    ensures FindIndex(messages + extra, id) == FindIndex(messages, id)
  {
    var i := FindIndex(messages, id);
    assert (messages + extra)[i] == messages[i];
  }

  /** Two message lists with the same ids in the same places. */
  predicate SameIds(a: seq<Message>, b: seq<Message>) {
    |a| == |b| && forall k :: 0 <= k < |a| ==> a[k].id == b[k].id
  }

  /** The lookup depends on the ids alone. */
  lemma FindIndexSameIds(a: seq<Message>, b: seq<Message>, id: string)
    requires SameIds(a, b)
    ensures FindIndex(a, id) == FindIndex(b, id)
  {
  }
}
