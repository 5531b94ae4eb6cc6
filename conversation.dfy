/**
 * Conversations and their messages (conversation/domain/Conversation.java,
 * conversation/domain/Message.java) and the message repository queries
 * (conversation/repository/MessageRepository.java).
 *
 * A message's sender is kept as the sender's user id; the sender's
 * nickname is looked up when it is needed.
 */
module Conversations {
  import opened Common

  datatype MessageType = TEXT | IMAGE

  class Message {
    const sender: int
    const messageType: MessageType
    const content: Option<string>
    const imageUrl: Option<string>
    const sentAt: int
    var conversation: Conversation
    var imageDescription: Option<string>

    /** The builder constructor: a missing send time becomes the current time. */
    constructor (conversation: Conversation, sender: int, messageType: MessageType,
                 content: Option<string>, imageUrl: Option<string>, sentAt: Option<int>, now: int)
      ensures this.conversation == conversation && this.sender == sender
      ensures this.messageType == messageType && this.content == content && this.imageUrl == imageUrl
      ensures this.sentAt == (if sentAt.Some? then sentAt.value else now)
      ensures this.imageDescription == None
    {
      this.conversation := conversation;
      this.sender := sender;
      this.messageType := messageType;
      this.content := content;
      this.imageUrl := imageUrl;
      this.sentAt := if sentAt.Some? then sentAt.value else now;
      this.imageDescription := None;
    }

    function IsText(): (b: bool)
      ensures b <==> messageType == TEXT
      ensures b <==> !IsImage()
    {
      messageType == TEXT
    }

    function IsImage(): (b: bool)
      ensures b <==> messageType == IMAGE
    {
      messageType == IMAGE
    }

    /** An image whose AI description has been stored. */
    function IsImageAnalyzed(): (b: bool)
      reads this
      ensures b <==> IsImage() && imageDescription.Some?
      ensures b ==> !IsText()
    {
      messageType == IMAGE && imageDescription != None
    }

    method UpdateImageDescription(description: Option<string>)
      modifies this
      ensures imageDescription == description
      ensures conversation == old(conversation)
    {
      imageDescription := description;
    }
  }

  class Conversation {
    const familyId: int
    var name: string
    var messages: seq<Message>

    constructor (familyId: int, name: string)
      ensures this.familyId == familyId && this.name == name
      ensures messages == []
    {
      this.familyId := familyId;
      this.name := name;
      messages := [];
    }

    /** Appends the message and makes this conversation its owner. */
    method AddMessage(message: Message)
      modifies this, message
      ensures messages == old(messages) + [message]
      ensures message.conversation == this
      ensures name == old(name)
      ensures message.imageDescription == old(message.imageDescription)
    {
      messages := messages + [message];
      message.conversation := this;
    }

    method UpdateName(name: string)
      modifies this
      ensures this.name == name
      ensures messages == old(messages)
    {
      this.name := name;
    }

    /** The messages sent strictly after now minus `days` days, in list order. */
    function RecentMessages(days: int, now: int): (r: seq<Message>)
      reads this
      ensures forall i | 0 <= i < |r| :: r[i] in messages && r[i].sentAt > now - days * SecondsPerDay
      ensures forall i | 0 <= i < |messages| :: messages[i].sentAt > now - days * SecondsPerDay ==> messages[i] in r
      ensures multiset(r) <= multiset(messages)
      ensures forall i | 0 <= i < |messages| && messages[i].sentAt > now - days * SecondsPerDay
                :: multiset(r)[messages[i]] == multiset(messages)[messages[i]]
      ensures r == Filter(messages, (m: Message) => m.sentAt > now - days * SecondsPerDay)
    {
      FilterCounts(messages, (m: Message) => m.sentAt > now - days * SecondsPerDay);
      Filter(messages, (m: Message) => m.sentAt > now - days * SecondsPerDay)
    }

    /** The messages sent strictly between `start` and `end`, in list order. */
    function MessagesBetween(start: int, end: int): (r: seq<Message>)
      reads this
      ensures forall i | 0 <= i < |r| :: r[i] in messages && start < r[i].sentAt < end
      ensures forall i | 0 <= i < |messages| :: start < messages[i].sentAt < end ==> messages[i] in r
      ensures multiset(r) <= multiset(messages)
      ensures forall i | 0 <= i < |messages| && start < messages[i].sentAt < end
                :: multiset(r)[messages[i]] == multiset(messages)[messages[i]]
      ensures r == Filter(messages, (m: Message) => start < m.sentAt < end)
    {
      FilterCounts(messages, (m: Message) => start < m.sentAt < end);
      Filter(messages, (m: Message) => start < m.sentAt < end)
    }
  }

  // ------------------------------------------------------- MessageRepository

  /** Ascending send time (ORDER BY sentAt ASC). */
  function BySentAt(m: Message): Rank
  {
    Asc(m.sentAt)
  }

  ghost predicate AscendingSentAt(r: seq<Message>)
  {
    forall i, j | 0 <= i < j < |r| :: r[i].sentAt <= r[j].sentAt
  }

  lemma SortedBySentAt(r: seq<Message>)
    requires SortedBy(r, BySentAt)
    ensures AscendingSentAt(r)
  {
    forall i, j | 0 <= i < j < |r| ensures r[i].sentAt <= r[j].sentAt {
      assert RankLe(BySentAt(r[i]), BySentAt(r[j]));
    }
  }

  /** The rows of the message table belonging to `c`. */
  function OfConversation(table: seq<Message>, c: Conversation): (r: seq<Message>)
    reads table
    ensures forall i | 0 <= i < |r| :: r[i] in table && r[i].conversation == c
    ensures forall i | 0 <= i < |table| :: table[i].conversation == c ==> table[i] in r
    ensures multiset(r) <= multiset(table)
    ensures forall i | 0 <= i < |table| && table[i].conversation == c :: multiset(r)[table[i]] == multiset(table)[table[i]]
  {
    if table == [] then []
    else
      assert table == [table[0]] + table[1..];
      if table[0].conversation == c then [table[0]] + OfConversation(table[1..], c)
      else OfConversation(table[1..], c)
  }

  /** The rows of the message table whose conversation belongs to the family. */
  function OfFamily(table: seq<Message>, familyId: int): (r: seq<Message>)
    reads table
    ensures forall i | 0 <= i < |r| :: r[i] in table && r[i].conversation.familyId == familyId
    ensures forall i | 0 <= i < |table| :: table[i].conversation.familyId == familyId ==> table[i] in r
    ensures multiset(r) <= multiset(table)
    ensures forall i | 0 <= i < |table| && table[i].conversation.familyId == familyId :: multiset(r)[table[i]] == multiset(table)[table[i]]
  {
    if table == [] then []
    else
      assert table == [table[0]] + table[1..];
      if table[0].conversation.familyId == familyId then [table[0]] + OfFamily(table[1..], familyId)
      else OfFamily(table[1..], familyId)
  }

  function FindByConversationOrderBySentAtAsc(table: seq<Message>, c: Conversation): (r: seq<Message>)
    reads table
    ensures forall i | 0 <= i < |r| :: r[i] in table && r[i].conversation == c
    ensures forall i | 0 <= i < |table| :: table[i].conversation == c ==> table[i] in r
    ensures AscendingSentAt(r)
    ensures multiset(r) <= multiset(table)
    ensures forall i | 0 <= i < |table| && table[i].conversation == c
              :: multiset(r)[table[i]] == multiset(table)[table[i]]
  {
    var rows, all := OfConversation(table, c), (m: Message) => true;
    var r := Query(rows, all, BySentAt);
    FilterAll(rows, all);
    SortedBySentAt(r);
    r
  }

  /** Messages of `c` with start <= sentAt <= end (SQL BETWEEN), oldest first. */
  function FindByConversationAndSentAtBetween(table: seq<Message>, c: Conversation, start: int, end: int): (r: seq<Message>)
    reads table
    ensures forall i | 0 <= i < |r| :: r[i] in table && r[i].conversation == c && start <= r[i].sentAt <= end
    ensures forall i | 0 <= i < |table| :: table[i].conversation == c && start <= table[i].sentAt <= end ==> table[i] in r
    ensures AscendingSentAt(r)
    ensures multiset(r) <= multiset(table)
    ensures forall i | 0 <= i < |table| && table[i].conversation == c && start <= table[i].sentAt <= end
              :: multiset(r)[table[i]] == multiset(table)[table[i]]
  {
    var rows, keep := OfConversation(table, c), (m: Message) => start <= m.sentAt <= end;
    var r := Query(rows, keep, BySentAt);
    FilterCounts(rows, keep);
    SortedBySentAt(r);
    r
  }

  /** Messages of the family's conversations with start <= sentAt <= end, oldest first. */
  function FindByFamilyIdAndSentAtBetween(table: seq<Message>, familyId: int, start: int, end: int): (r: seq<Message>)
    reads table
    ensures forall i | 0 <= i < |r| :: r[i] in table && r[i].conversation.familyId == familyId && start <= r[i].sentAt <= end
    ensures forall i | 0 <= i < |table| :: table[i].conversation.familyId == familyId && start <= table[i].sentAt <= end ==> table[i] in r
    ensures AscendingSentAt(r)
    ensures multiset(r) <= multiset(table)
    ensures forall i | 0 <= i < |table| && table[i].conversation.familyId == familyId && start <= table[i].sentAt <= end
              :: multiset(r)[table[i]] == multiset(table)[table[i]]
  {
    var rows, keep := OfFamily(table, familyId), (m: Message) => start <= m.sentAt <= end;
    var r := Query(rows, keep, BySentAt);
    FilterCounts(rows, keep);
    SortedBySentAt(r);
    r
  }

  /** Messages of the family's conversations with sentAt >= since, oldest first. */
  function FindRecentMessagesByFamilyId(table: seq<Message>, familyId: int, since: int): (r: seq<Message>)
    reads table
    ensures forall i | 0 <= i < |r| :: r[i] in table && r[i].conversation.familyId == familyId && r[i].sentAt >= since
    ensures forall i | 0 <= i < |table| :: table[i].conversation.familyId == familyId && table[i].sentAt >= since ==> table[i] in r
    ensures AscendingSentAt(r)
    ensures multiset(r) <= multiset(table)
    ensures forall i | 0 <= i < |table| && table[i].conversation.familyId == familyId && table[i].sentAt >= since
              :: multiset(r)[table[i]] == multiset(table)[table[i]]
  {
    var rows, keep := OfFamily(table, familyId), (m: Message) => m.sentAt >= since;
    var r := Query(rows, keep, BySentAt);
    FilterCounts(rows, keep);
    SortedBySentAt(r);
    r
  }

  /** The rows that are images without a stored description. */
  function Unanalyzed(table: seq<Message>): (r: seq<Message>)
    reads table
    ensures forall i | 0 <= i < |r| :: r[i] in table && r[i].IsImage() && r[i].imageDescription.None?
    ensures forall i | 0 <= i < |table| :: table[i].IsImage() && table[i].imageDescription.None? ==> table[i] in r
    ensures multiset(r) <= multiset(table)
    ensures forall i | 0 <= i < |table| && table[i].IsImage() && table[i].imageDescription.None? :: multiset(r)[table[i]] == multiset(table)[table[i]]
  {
    if table == [] then []
    else
      assert table == [table[0]] + table[1..];
      if table[0].IsImage() && table[0].imageDescription.None? then [table[0]] + Unanalyzed(table[1..])
      else Unanalyzed(table[1..])
  }

  function FindUnanalyzedImageMessages(table: seq<Message>): (r: seq<Message>)
    reads table
    ensures forall i | 0 <= i < |r| :: r[i] in table && r[i].IsImage() && r[i].imageDescription.None?
    ensures forall i | 0 <= i < |table| :: table[i].IsImage() && table[i].imageDescription.None? ==> table[i] in r
    ensures AscendingSentAt(r)
    ensures multiset(r) <= multiset(table)
    ensures forall i | 0 <= i < |table| && table[i].IsImage() && table[i].imageDescription.None?
              :: multiset(r)[table[i]] == multiset(table)[table[i]]
  {
    var rows, all := Unanalyzed(table), (m: Message) => true;
    var r := Query(rows, all, BySentAt);
    FilterAll(rows, all);
    SortedBySentAt(r);
    r
  }

  /**
   * The message of `c` with the latest send time (ORDER BY sentAt DESC
   * LIMIT 1), or None (null) when the conversation has none.
   */
  function FindLastMessageByConversation(table: seq<Message>, c: Conversation): (r: Option<Message>)
    reads table
    ensures r.None? <==> forall i | 0 <= i < |table| :: table[i].conversation != c
    ensures r.Some? ==> r.value in table && r.value.conversation == c
    ensures r.Some? ==> forall i | 0 <= i < |table| :: table[i].conversation == c ==> table[i].sentAt <= r.value.sentAt
  {
    var mine := OfConversation(table, c);
    var sorted := Query(mine, _ => true, (m: Message) => Desc(m.sentAt));
    if sorted == [] then
      None
    else
      assert forall i | 0 <= i < |table| :: table[i].conversation == c ==> table[i].sentAt <= sorted[0].sentAt by {
        forall i | 0 <= i < |table| && table[i].conversation == c
          ensures table[i].sentAt <= sorted[0].sentAt
        {
          assert table[i] in sorted;
          var k :| 0 <= k < |sorted| && sorted[k] == table[i];
          if k > 0 {
            assert RankLe(Desc(sorted[0].sentAt), Desc(sorted[k].sentAt));
          }
        }
      }
      Some(sorted[0])
  }

  /** Messages of the family of one type with start <= sentAt <= end, oldest first. */
  function FindByFamilyIdAndTypeAndSentAtBetween(table: seq<Message>, familyId: int, messageType: MessageType, start: int, end: int): (r: seq<Message>)
    reads table
    ensures forall i | 0 <= i < |r| :: r[i] in table && r[i].conversation.familyId == familyId && r[i].messageType == messageType && start <= r[i].sentAt <= end
    ensures forall i | 0 <= i < |table| :: table[i].conversation.familyId == familyId && table[i].messageType == messageType && start <= table[i].sentAt <= end ==> table[i] in r
    ensures AscendingSentAt(r)
    ensures multiset(r) <= multiset(table)
    ensures forall i | 0 <= i < |table| && table[i].conversation.familyId == familyId && table[i].messageType == messageType && start <= table[i].sentAt <= end
              :: multiset(r)[table[i]] == multiset(table)[table[i]]
  {
    var rows, keep := OfFamily(table, familyId), (m: Message) => m.messageType == messageType && start <= m.sentAt <= end;
    var r := Query(rows, keep, BySentAt);
    FilterCounts(rows, keep);
    SortedBySentAt(r);
    r
  }
}
