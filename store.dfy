/** The MongoDB collections the pipeline reads and writes, as one object
    whose fields the operations update in place: ChatMessage and
    MessageAnalysis documents in insertion order (a message's id is its
    position), saved Chat turns, and the MentalHealthScore and
    DailyInsight rows keyed by their unique (userId, date) index. */
module Store {
  import opened Wrappers
  import opened Records

  type Key = (UserId, Date)

  /** A score row stored under `k` carries `k` as its userId and date, and
      is a valid row. */
  predicate StoredScore(k: Key, s: DailyScore) {
    s.userId == k.0 && s.date == k.1 && ValidScore(s)
  }

  predicate StoredInsight(k: Key, i: Insight) {
    i.userId == k.0 && i.date == k.1
  }

  class Db {
    var messages: seq<ChatMessage>
    var analyses: seq<Analysis>
    var chats: seq<ChatTurn>
    var scores: map<Key, DailyScore>
    var insights: map<Key, Insight>

    /** What the schemas and the unique indexes guarantee of the stored
        documents. */
    ghost predicate Valid()
      reads this
    {
      (forall i :: 0 <= i < |messages| ==> ValidChatMessage(messages[i]))
      && (forall i :: 0 <= i < |analyses| ==> ValidAnalysis(analyses[i]))
      && (forall k :: k in scores ==> StoredScore(k, scores[k]))
      && (forall k :: k in insights ==> StoredInsight(k, insights[k]))
    }

    constructor()
      ensures Valid()
      ensures messages == [] && analyses == [] && chats == []
      ensures scores == map[] && insights == map[]
    {
      messages := [];
      analyses := [];
      chats := [];
      scores := map[];
      insights := map[];
    }

    /** `ChatMessage.create` after validation: the new document's id is
        its position. */
    method InsertMessage(m: ChatMessage) returns (id: MessageId)
      requires Valid() && ValidChatMessage(m)
      modifies this
      ensures Valid()
      ensures id == |old(messages)| && messages == old(messages) + [m]
      ensures analyses == old(analyses) && chats == old(chats)
      ensures scores == old(scores) && insights == old(insights)
    {
      id := |messages|;
      messages := messages + [m];
    }

    /** `MessageAnalysis.create` after validation. */
    method InsertAnalysis(a: Analysis)
      requires Valid() && ValidAnalysis(a)
      modifies this
      ensures Valid()
      ensures analyses == old(analyses) + [a]
      ensures messages == old(messages) && chats == old(chats)
      ensures scores == old(scores) && insights == old(insights)
    {
      analyses := analyses + [a];
    }

    /** `chat.save()` of a Chat turn. */
    method InsertChat(c: ChatTurn)
      requires Valid()
      modifies this
      ensures Valid()
      ensures chats == old(chats) + [c]
      ensures messages == old(messages) && analyses == old(analyses)
      ensures scores == old(scores) && insights == old(insights)
    {
      chats := chats + [c];
    }

    /** Writes the score row of `k`, inserting it if absent. */
    method PutScore(k: Key, s: DailyScore)
      requires Valid() && StoredScore(k, s)
      modifies this
      ensures Valid()
      ensures scores == old(scores)[k := s]
      ensures messages == old(messages) && analyses == old(analyses)
      ensures chats == old(chats) && insights == old(insights)
    {
      scores := scores[k := s];
    }

    /** `DailyInsight.create` for a key that has no insight yet. */
    method PutInsight(k: Key, i: Insight)
      requires Valid() && StoredInsight(k, i) && k !in insights
      modifies this
      ensures Valid()
      ensures insights == old(insights)[k := i]
      ensures messages == old(messages) && analyses == old(analyses)
      ensures chats == old(chats) && scores == old(scores)
    {
      insights := insights[k := i];
    }
  }
}
