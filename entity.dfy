/**
 * Package entity: the process-wide tracker of entity ids whose migration is
 * outstanding, and the generator of entities with numbered message texts.
 * The random draws of math/rand are parameters.
 */
module Entity {
  import Decimal

  /** The alphabet randSeq draws from: 'a' to 'z', then 'A' to 'Z'. */
  const Letters: string :=
    seq(26, i requires 0 <= i < 26 => ('a' as int + i) as char) +
    seq(26, i requires 0 <= i < 26 => ('A' as int + i) as char)

  /** NewEntity asks randSeq for ids of this length. */
  const IdLength: nat := 30

  predicate IsAsciiLetter(c: char) {
    'a' <= c <= 'z' || 'A' <= c <= 'Z'
  }

  /** The alphabet is the 52 ASCII letters, each once, in the order of the literal: a to z, then A to Z. */
  lemma LettersAreAsciiLetters()
    ensures |Letters| == 52
    ensures Letters[0] == 'a' && Letters[25] == 'z' && Letters[26] == 'A' && Letters[51] == 'Z'
    ensures forall i :: 0 <= i < |Letters| ==> IsAsciiLetter(Letters[i])
    ensures forall i, j :: 0 <= i < j < |Letters| ==> Letters[i] != Letters[j]
    ensures Letters == "abcdefghijklmnopqrstuvwxyz" + "ABCDEFGHIJKLMNOPQRSTUVWXYZ"
  {
    assert seq(26, i requires 0 <= i < 26 => ('a' as int + i) as char) == "abcdefghijklmnopqrstuvwxyz";
    assert seq(26, i requires 0 <= i < 26 => ('A' as int + i) as char) == "ABCDEFGHIJKLMNOPQRSTUVWXYZ";
  }

  /**
   * The tracker: a Go map from entity id to struct{} used as a set. The
   * source keeps one instance in a package-level variable, without a lock.
   */
  class Tracker {
    var ids: set<string>

    constructor ()
      ensures ids == {}
    {
      ids := {};
    }

    /** AddEntity: id becomes a member; the count grows only if it was absent. */
    method AddEntity(id: string)
      modifies this
      ensures ids == old(ids) + {id}
      ensures |ids| == if id in old(ids) then old(|ids|) else old(|ids|) + 1
    {
      ids := ids + {id};
    }

    /** RemoveEntity: id is absent afterwards; removing an absent id changes nothing. */
    method RemoveEntity(id: string)
      modifies this
      ensures ids == old(ids) - {id}
      ensures |ids| == if id in old(ids) then old(|ids|) - 1 else old(|ids|)
    {
      ids := ids - {id};
    }

    /** GetEntityCount: the number of distinct ids tracked, len of the map. */
    method GetEntityCount() returns (n: int)
      ensures n == |ids|
    {
      n := |ids|;
    }

    /**
     * AddEntity of an absent id followed by RemoveEntity of the same id
     * leaves the tracker as it was.
     */
    method AddThenRemoveRestores(id: string)
      requires id !in ids
      modifies this
      ensures ids == old(ids) && |ids| == old(|ids|)
    {
      AddEntity(id);
      RemoveEntity(id);
    }
  }

  /**
   * Adding an id that was absent and then removing it gives back the set and
   * the count from before; neither step changes the membership of another id.
   */
  lemma AddThenRemove(ids: set<string>, id: string)
    requires id !in ids
    ensures (ids + {id}) - {id} == ids
    ensures |ids + {id}| == |ids| + 1 && |(ids + {id}) - {id}| == |ids|
    ensures forall x :: x != id ==> (x in ids + {id} <==> x in ids) && (x in ids - {id} <==> x in ids)
  {
  }

  /** An entity as NewEntity builds it; the source never changes one afterwards. */
  datatype Entity = Entity(id: string, messageCount: int, messages: seq<string>)
  {
    /** GetId, GetMessageCount, GetMessages: read-only views of the fields. */
    function GetId(): (r: string)
      ensures r == id
    {
      id
    }

    function GetMessageCount(): (r: int)
      ensures r == messageCount
    {
      messageCount
    }

    function GetMessages(): (r: seq<string>)
      ensures r == messages
    {
      messages
    }
  }

  /** The text of message number i of the entity with the given id ("%d" formatting). */
  function MessageText(id: string, i: nat): string {
    "Entity: " + id + " | Message # " + Decimal.Format(i)
  }

  /**
   * randSeq(r, n): n characters, the i-th being Letters[draws[i]], where
   * draws[i] is the i-th result of r.Intn(len(letters)).
   */
  method RandSeq(draws: seq<int>, n: nat) returns (s: string)
    requires |draws| == n
    requires forall i :: 0 <= i < n ==> 0 <= draws[i] < |Letters|
    ensures |s| == n
    ensures forall i :: 0 <= i < n ==> s[i] == Letters[draws[i]] && IsAsciiLetter(s[i])
  {
    LettersAreAsciiLetters();
    var b := new char[n];
    for i := 0 to n
      invariant forall k :: 0 <= k < i ==> b[k] == Letters[draws[k]]
    {
      b[i] := Letters[draws[i]];
    }
    s := b[..];
  }

  /**
   * NewEntity(maxMessages): an id of 30 letters drawn by randSeq, a message
   * count drawn by r.Intn(maxMessages), and that many numbered messages.
   * Intn panics unless maxMessages > 0, and returns a value in
   * [0, maxMessages).
   */
  method NewEntity(maxMessages: int, idDraws: seq<int>, countDraw: int) returns (e: Entity)
    requires 0 < maxMessages
    requires |idDraws| == IdLength
    requires forall i :: 0 <= i < IdLength ==> 0 <= idDraws[i] < |Letters|
    requires 0 <= countDraw < maxMessages
    ensures |e.id| == IdLength
    ensures forall i :: 0 <= i < IdLength ==> e.id[i] == Letters[idDraws[i]] && IsAsciiLetter(e.id[i])
    ensures e.messageCount == countDraw && 0 <= e.messageCount < maxMessages
    ensures |e.messages| == e.messageCount
    ensures forall i :: 0 <= i < |e.messages| ==> e.messages[i] == MessageText(e.id, i)
  {
    var entityId := RandSeq(idDraws, IdLength);
    var messageCount := countDraw;
    var messages: seq<string> := [];
    var i := 0;
    while i < messageCount
      invariant 0 <= i <= messageCount
      invariant |messages| == i
      invariant forall k :: 0 <= k < i ==> messages[k] == MessageText(entityId, k)
    {
      messages := messages + ["Entity: " + entityId + " | Message # " + Decimal.Format(i)];
      i := i + 1;
    }
    e := Entity(entityId, messageCount, messages);
  }
}
