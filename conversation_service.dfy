/** Conversations between a buyer and the seller of a product, and the
    messages exchanged in them. A conversation is keyed by (product, buyer,
    seller) through find-or-create; only its two participants can read it or
    write to it. */
module ConversationService {
  import opened Common
  import ProductSchema
  import ProductService

  datatype ConversationStatus = Active | Closed

  datatype MessageType = Text | ContactShare | Offer

  datatype Conversation = Conversation(
    id: Uuid,
    productId: Uuid,
    buyerId: Uuid,
    sellerId: Uuid,
    status: ConversationStatus,
    createdAt: int,
    updatedAt: int)

  datatype Message = Message(
    id: Uuid,
    conversationId: Uuid,
    senderId: Uuid,
    message: string,
    messageType: MessageType,
    offerPrice: Option<int>,
    isRead: bool,
    createdAt: int)

  /** The `MessageCreate` request. */
  datatype MessageCreate = MessageCreate(message: string, messageType: MessageType, offerPrice: Option<int>)

  predicate IsParticipant(c: Conversation, userId: Uuid)
  {
    c.buyerId == userId || c.sellerId == userId
  }

  /** No two conversations share a (product, buyer, seller) key. */
  predicate UniqueTriples(convs: seq<Conversation>)
  {
    forall i, j ::
      (0 <= i < |convs| && 0 <= j < |convs| && convs[i].productId == convs[j].productId
       && convs[i].buyerId == convs[j].buyerId && convs[i].sellerId == convs[j].sellerId) ==> i == j
  }

  /** The first conversation with that key. */
  function FindTriple(convs: seq<Conversation>, productId: Uuid, buyerId: Uuid, sellerId: Uuid): (r: Option<nat>)
    ensures r.Some? ==>
      r.value < |convs| && convs[r.value].productId == productId
      && convs[r.value].buyerId == buyerId && convs[r.value].sellerId == sellerId
    ensures r.None? <==> forall c :: c in convs ==>
      !(c.productId == productId && c.buyerId == buyerId && c.sellerId == sellerId)
  {
    FirstIndex(convs, (c: Conversation) => c.productId == productId && c.buyerId == buyerId && c.sellerId == sellerId)
  }

  /** The row `create_conversation` inserts: active, between the buyer and the
      product's seller. */
  function NewConversation(id: Uuid, productId: Uuid, buyerId: Uuid, sellerId: Uuid, now: int): (c: Conversation)
    ensures c.id == id && c.productId == productId && c.buyerId == buyerId && c.sellerId == sellerId
    ensures c.status == Active
  {
    Conversation(id, productId, buyerId, sellerId, Active, now, now)
  }

  /** What `create_conversation` returns and the conversation table after it. */
  datatype Created = Created(conversation: Option<Conversation>, conversations: seq<Conversation>)

  /** `create_conversation`: nothing for an unknown product; otherwise the
      conversation of this buyer with the product's seller about the
      product, the existing one if there is one, else a new one appended. */
  function FindOrCreate(convs: seq<Conversation>, products: seq<ProductSchema.Product>, productId: Uuid,
                        buyerId: Uuid, newId: Uuid, now: int): (r: Created)
    ensures r.conversation.None? <==> ProductService.FindProduct(products, productId).None?
    ensures r.conversation.None? ==> r.conversations == convs
    ensures r.conversation.Some? ==>
      var seller := products[ProductService.FindProduct(products, productId).value].sellerId;
      && r.conversation.value.productId == productId
      && r.conversation.value.buyerId == buyerId
      && r.conversation.value.sellerId == seller
      && r.conversation.value in r.conversations
      && (FindTriple(convs, productId, buyerId, seller).Some? ==> r.conversations == convs)
      && (FindTriple(convs, productId, buyerId, seller).None? ==>
            r.conversations == convs + [NewConversation(newId, productId, buyerId, seller, now)])
  {
    match ProductService.FindProduct(products, productId)
    case None => Created(None, convs)
    case Some(k) =>
      var seller := products[k].sellerId;
      match FindTriple(convs, productId, buyerId, seller)
      case Some(e) => Created(Some(convs[e]), convs)
      case None =>
        var c := NewConversation(newId, productId, buyerId, seller, now);
        Created(Some(c), convs + [c])
  }

  /** A key absent from a table is found at the row appended for it. */
  lemma FindTripleAppended(convs: seq<Conversation>, c: Conversation)
    requires FindTriple(convs, c.productId, c.buyerId, c.sellerId).None?
    ensures FindTriple(convs + [c], c.productId, c.buyerId, c.sellerId) == Some(|convs|)
  {
    var s := convs + [c];
    var p := (x: Conversation) => x.productId == c.productId && x.buyerId == c.buyerId && x.sellerId == c.sellerId;
    var r := FindTriple(s, c.productId, c.buyerId, c.sellerId);
    assert forall j :: 0 <= j < |convs| ==> s[j] == convs[j] && !p(s[j]);
    assert r.Some? by { assert p(s[|convs|]); }
  }

  /** Find-or-create is idempotent: asking again, with any fresh id and
      time, returns the same conversation and leaves the table as the
      first call left it. */
  lemma FindOrCreateIdempotent(convs: seq<Conversation>, products: seq<ProductSchema.Product>, productId: Uuid,
                               buyerId: Uuid, newId: Uuid, now: int, newId2: Uuid, later: int)
    ensures var first := FindOrCreate(convs, products, productId, buyerId, newId, now);
      var second := FindOrCreate(first.conversations, products, productId, buyerId, newId2, later);
      second == first
  {
    var k := ProductService.FindProduct(products, productId);
    if k.Some? {
      var seller := products[k.value].sellerId;
      if FindTriple(convs, productId, buyerId, seller).None? {
        FindTripleAppended(convs, NewConversation(newId, productId, buyerId, seller, now));
      }
    }
  }

  /** Find-or-create never adds a second conversation with the same key. */
  lemma FindOrCreateKeepsUnique(convs: seq<Conversation>, products: seq<ProductSchema.Product>, productId: Uuid,
                                buyerId: Uuid, newId: Uuid, now: int)
    requires UniqueTriples(convs)
    ensures UniqueTriples(FindOrCreate(convs, products, productId, buyerId, newId, now).conversations)
  {
    var r := FindOrCreate(convs, products, productId, buyerId, newId, now);
    if r.conversations != convs {
      var s := r.conversations;
      forall i | 0 <= i < |convs|
        ensures !(s[i].productId == s[|convs|].productId && s[i].buyerId == s[|convs|].buyerId
                  && s[i].sellerId == s[|convs|].sellerId)
      {
        assert s[i] == convs[i] && convs[i] in convs;
      }
    }
  }

  /** The products some conversation names: the ids that
      `Catalog.DeleteProduct` is refused for, since the conversations'
      foreign key neither cascades nor may be null. */
  function ReferencedProducts(convs: seq<Conversation>): (s: set<Uuid>)
    ensures forall id :: id in s <==> exists i :: 0 <= i < |convs| && convs[i].productId == id
  {
    set i | 0 <= i < |convs| :: convs[i].productId
  }

  /** `get_user_conversations`: exactly the conversations the user takes
      part in, as buyer or as seller. */
  function UserConversations(convs: seq<Conversation>, userId: Uuid): (r: seq<Conversation>)
    ensures forall c :: c in r <==> c in convs && (c.buyerId == userId || c.sellerId == userId)
  {
    Filter(convs, (c: Conversation) => IsParticipant(c, userId))
  }

  /** `get_conversation`: the conversation with that id, provided the user
      takes part in it. */
  function GetConversation(convs: seq<Conversation>, conversationId: Uuid, userId: Uuid): (r: Option<Conversation>)
    ensures r.Some? ==> r.value in convs && r.value.id == conversationId && IsParticipant(r.value, userId)
    ensures r.None? <==> forall c :: c in convs && c.id == conversationId ==> !IsParticipant(c, userId)
  {
    match FirstIndex(convs, (c: Conversation) => c.id == conversationId && IsParticipant(c, userId))
    case None => None
    case Some(k) => Some(convs[k])
  }

  /** The messages of a conversation, in stored order. */
  function MessagesOf(messages: seq<Message>, conversationId: Uuid): (r: seq<Message>)
    ensures forall m :: m in r <==> m in messages && m.conversationId == conversationId
  {
    Filter(messages, (m: Message) => m.conversationId == conversationId)
  }

  /** The row `send_message` inserts: unread, from the sender, in the
      conversation, with the request's content. */
  function NewMessage(id: Uuid, conversationId: Uuid, senderId: Uuid, mc: MessageCreate, now: int): (m: Message)
    ensures m.id == id && m.conversationId == conversationId && m.senderId == senderId
    ensures m.message == mc.message && m.messageType == mc.messageType && m.offerPrice == mc.offerPrice
    ensures !m.isRead
  {
    Message(id, conversationId, senderId, mc.message, mc.messageType, mc.offerPrice, false, now)
  }

  /** The bulk update of `mark_messages_as_read`. */
  function MarkRead(messages: seq<Message>, conversationId: Uuid, userId: Uuid): (r: seq<Message>)
    ensures |r| == |messages|
  {
    seq(|messages|, i requires 0 <= i < |messages| =>
      if messages[i].conversationId == conversationId && messages[i].senderId != userId
      then messages[i].(isRead := true) else messages[i])
  }

  /** Marking sets the flag of every message of the conversation sent by
      someone else, leaves the user's own messages and those of other
      conversations as they were, changes nothing but the flag, and is
      idempotent. */
  lemma MarkReadLaws(messages: seq<Message>, conversationId: Uuid, userId: Uuid)
    ensures var r := MarkRead(messages, conversationId, userId);
      forall i :: 0 <= i < |messages| ==>
        && (messages[i].conversationId == conversationId && messages[i].senderId != userId ==> r[i].isRead)
        && (messages[i].conversationId != conversationId || messages[i].senderId == userId ==> r[i] == messages[i])
        && r[i] == messages[i].(isRead := r[i].isRead)
    ensures MarkRead(MarkRead(messages, conversationId, userId), conversationId, userId) == MarkRead(messages, conversationId, userId)
  {
  }

  /** Every message belongs to a stored conversation. */
  predicate MessagesBelong(convs: seq<Conversation>, messages: seq<Message>)
  {
    forall m :: m in messages ==> exists c :: c in convs && c.id == m.conversationId
  }

  /** The conversation and message tables. */
  class Inbox {
    var conversations: seq<Conversation>
    var messages: seq<Message>

    predicate Valid()
      reads this
    {
      UniqueTriples(conversations) && MessagesBelong(conversations, messages)
    }

    constructor ()
      ensures conversations == [] && messages == [] && Valid()
    {
      conversations := [];
      messages := [];
    }

    /** `create_conversation`, over the product table `products`. */
    method CreateConversation(products: seq<ProductSchema.Product>, productId: Uuid, buyerId: Uuid, newId: Uuid, now: int)
      returns (r: Option<Conversation>)
      requires Valid()
      modifies this
      ensures Valid() && messages == old(messages)
      ensures var created := FindOrCreate(old(conversations), products, productId, buyerId, newId, now);
        r == created.conversation && conversations == created.conversations
    {
      var created := FindOrCreate(conversations, products, productId, buyerId, newId, now);
      FindOrCreateKeepsUnique(conversations, products, productId, buyerId, newId, now);
      conversations := created.conversations;
      r := created.conversation;
    }

    /** `send_message`: a participant's message is appended; anyone else
        gets nothing and nothing changes. */
    method SendMessage(conversationId: Uuid, senderId: Uuid, mc: MessageCreate, newId: Uuid, now: int)
      returns (r: Option<Message>)
      requires Valid()
      modifies this
      ensures Valid() && conversations == old(conversations)
      ensures GetConversation(old(conversations), conversationId, senderId).None? ==>
        r.None? && messages == old(messages)
      ensures GetConversation(old(conversations), conversationId, senderId).Some? ==>
        r == Some(NewMessage(newId, conversationId, senderId, mc, now)) && messages == old(messages) + [r.value]
    {
      var c := GetConversation(conversations, conversationId, senderId);
      if c.None? {
        return None;
      }
      var m := NewMessage(newId, conversationId, senderId, mc, now);
      messages := messages + [m];
      return Some(m);
    }

    /** `mark_messages_as_read`: with no conversation of that id nothing
        changes; otherwise the messages of the conversation that others
        sent become read. */
    method MarkMessagesAsRead(conversationId: Uuid, userId: Uuid)
      requires Valid()
      modifies this
      ensures Valid() && conversations == old(conversations)
      ensures (forall c :: c in conversations ==> c.id != conversationId) ==> messages == old(messages)
      ensures (exists c :: c in conversations && c.id == conversationId) ==>
        messages == MarkRead(old(messages), conversationId, userId)
    {
      var k := FirstIndex(conversations, (c: Conversation) => c.id == conversationId);
      if k.None? {
        return;
      }
      MarkReadLaws(messages, conversationId, userId);
      messages := MarkRead(messages, conversationId, userId);
    }

    /** The `get_conversation` endpoint: a participant gets the conversation
        and the messages others sent in it become read; anyone else gets
        nothing and nothing changes. */
    method OpenConversation(conversationId: Uuid, userId: Uuid) returns (r: Option<Conversation>)
      requires Valid()
      modifies this
      ensures Valid() && conversations == old(conversations)
      ensures r == GetConversation(old(conversations), conversationId, userId)
      ensures r.None? ==> messages == old(messages)
      ensures r.Some? ==> messages == MarkRead(old(messages), conversationId, userId)
    {
      r := GetConversation(conversations, conversationId, userId);
      if r.None? {
        return;
      }
      MarkMessagesAsRead(conversationId, userId);
    }
  }
}
