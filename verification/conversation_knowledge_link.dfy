/**
 * The `conversation_knowledge_link` table (models/dao/conversation_knowledge_link.py): which
 * knowledge bases a conversation uses. A link is keyed by the pair (conversation, knowledge base),
 * both foreign keys, and is removed only logically, by setting its `delete` flag to 1.
 */
module ConversationKnowledgeLinks {
  import opened Wrappers

  /** One row of the link table; `delete` is 0 for a live link and 1 once soft-deleted. */
  datatype Link = Link(conversationId: string, knowledgeBaseId: string, delete: int := 0)

  /** The columns of a `knowledge` row the queries read: its id and its own soft-delete flag. */
  datatype Knowledge = Knowledge(id: string, delete: int)

  /** Text of the integrity error raised by an insert whose key already exists. */
  const DuplicateKey: string := "duplicate primary key"
  /** Text of the integrity error raised by an insert naming a missing conversation or knowledge base. */
  const MissingParent: string := "foreign key constraint fails"

  /** Some row of `links` has the key (conversationId, knowledgeBaseId), whatever its `delete` flag. */
  predicate HasKey(links: seq<Link>, conversationId: string, knowledgeBaseId: string)
  {
    exists i :: 0 <= i < |links| && links[i].conversationId == conversationId && links[i].knowledgeBaseId == knowledgeBaseId
  }

  /** No two rows share the composite primary key. */
  predicate UniqueKeys(links: seq<Link>)
  {
    forall i, j :: 0 <= i < j < |links| && links[i].conversationId == links[j].conversationId ==>
      links[i].knowledgeBaseId != links[j].knowledgeBaseId
  }

  /** The link with its `delete` flag as the bulk update of `conversationId` leaves it. */
  function Flagged(link: Link, conversationId: string): Link
  {
    if link.conversationId == conversationId then link.(delete := 1) else link
  }

  /** The table after `UPDATE ... SET delete = 1 WHERE conversation_id = conversationId`. */
  function SoftDelete(links: seq<Link>, conversationId: string): (r: seq<Link>)
    ensures |r| == |links|
    ensures forall i :: 0 <= i < |links| ==>
      r[i].conversationId == links[i].conversationId && r[i].knowledgeBaseId == links[i].knowledgeBaseId
    ensures forall i :: 0 <= i < |links| ==>
      r[i].delete == (if links[i].conversationId == conversationId then 1 else links[i].delete)
  {
    if links == [] then []
    else [Flagged(links[0], conversationId)] + SoftDelete(links[1..], conversationId)
  }

  /** The rows the active-links query selects, in table order: that conversation's rows whose `delete` is 0. */
  function ActiveLinks(links: seq<Link>, conversationId: string): (r: seq<Link>)
    ensures |r| <= |links|
    ensures forall l :: l in r <==> l in links && l.conversationId == conversationId && l.delete == 0
  {
    if links == [] then []
    else
      var rest := ActiveLinks(links[1..], conversationId);
      if links[0].conversationId == conversationId && links[0].delete == 0 then [links[0]] + rest else rest
  }

  /** Each link's knowledge base looked up through the foreign key, keeping those whose own `delete` is 0, in link order. */
  function AttachedKnowledge(links: seq<Link>, knowledge: map<string, Knowledge>): (r: seq<Knowledge>)
    requires forall i :: 0 <= i < |links| ==> links[i].knowledgeBaseId in knowledge
    ensures |r| <= |links|
    ensures forall k :: k in r <==>
      k.delete == 0 && exists i :: 0 <= i < |links| && knowledge[links[i].knowledgeBaseId] == k
  {
    if links == [] then []
    else
      var rest := AttachedKnowledge(links[1..], knowledge);
      assert forall i :: 1 <= i < |links| ==> links[1..][i - 1] == links[i];
      var k := knowledge[links[0].knowledgeBaseId];
      if k.delete == 0 then [k] + rest else rest
  }

  /** The link table together with the two tables its foreign keys point to. */
  class LinkTable {
    var links: seq<Link>
    var knowledge: map<string, Knowledge>
    var conversations: set<string>

    /** Primary-key uniqueness, both foreign keys, and each knowledge row stored under its own id. */
    predicate Valid()
      reads this
    {
      && UniqueKeys(links)
      && (forall k :: k in knowledge ==> knowledge[k].id == k)
      && forall i :: 0 <= i < |links| ==> links[i].conversationId in conversations && links[i].knowledgeBaseId in knowledge
    }

    /** A table with no link, over the given conversations and knowledge bases. */
    constructor (conversations: set<string>, knowledge: map<string, Knowledge>)
      requires forall k :: k in knowledge ==> knowledge[k].id == k
      ensures Valid() && links == []
      ensures this.conversations == conversations && this.knowledge == knowledge
    {
      links := [];
      this.conversations := conversations;
      this.knowledge := knowledge;
    }

    /**
     * `ConversationKnowledgeLinkDao.create`: inserts a live link. The insert is refused when the
     * pair already has a row (live or soft-deleted) or when either parent row is missing.
     */
    method Create(conversationId: string, knowledgeId: string) returns (r: Result<Link>)
      requires Valid()
      modifies this
      ensures Valid()
      ensures knowledge == old(knowledge) && conversations == old(conversations)
      ensures r.Ok? <==> !HasKey(old(links), conversationId, knowledgeId)
                          && conversationId in conversations && knowledgeId in knowledge
      ensures r.Ok? ==> r.value == Link(conversationId, knowledgeId, 0) && links == old(links) + [r.value]
      ensures r.Err? ==> links == old(links)
    {
      if conversationId !in conversations || knowledgeId !in knowledge {
        return Err(MissingParent);
      }
      var i := 0;
      while i < |links|
        invariant 0 <= i <= |links|
        invariant forall j :: 0 <= j < i ==> links[j].conversationId != conversationId || links[j].knowledgeBaseId != knowledgeId
      {
        if links[i].conversationId == conversationId && links[i].knowledgeBaseId == knowledgeId {
          return Err(DuplicateKey);
        }
        i := i + 1;
      }
      var newLink := Link(conversationId := conversationId, knowledgeBaseId := knowledgeId);
      links := links + [newLink];
      r := Ok(newLink);
    }

    /** `ConversationKnowledgeLinkDao.delete`: sets `delete` to 1 on every link of the conversation, row by row. */
    method Delete(conversationId: string)
      requires Valid()
      modifies this
      ensures Valid()
      ensures knowledge == old(knowledge) && conversations == old(conversations)
      ensures links == SoftDelete(old(links), conversationId)
    {
      var i := 0;
      while i < |links|
        invariant 0 <= i <= |links| == |old(links)|
        invariant knowledge == old(knowledge) && conversations == old(conversations)
        invariant forall j :: 0 <= j < i ==> links[j] == Flagged(old(links)[j], conversationId)
        invariant forall j :: i <= j < |links| ==> links[j] == old(links)[j]
      {
        if links[i].conversationId == conversationId {
          links := links[i := links[i].(delete := 1)];
        }
        i := i + 1;
      }
      SoftDeleteIsFlagged(old(links), conversationId);
    }

    /** `ConversationKnowledgeLinkDao.get_active_links`. */
    function GetActiveLinks(conversationId: string): (r: seq<Link>)
      reads this
      ensures forall l :: l in r <==> l in links && l.conversationId == conversationId && l.delete == 0
    {
      ActiveLinks(links, conversationId)
    }

    /** `ConversationKnowledgeLinkDao.get_attached_knowledge`: the live knowledge bases of the conversation's active links. */
    function GetAttachedKnowledge(conversationId: string): (r: seq<Knowledge>)
      reads this
      requires Valid()
      ensures |r| <= |GetActiveLinks(conversationId)|
      ensures forall k :: k in r ==> k.delete == 0 && exists l :: l in links && l.conversationId == conversationId
                                                              && l.delete == 0 && knowledge[l.knowledgeBaseId] == k
                                                              && k.id == l.knowledgeBaseId
    {
      var active := ActiveLinks(links, conversationId);
      assert forall i :: 0 <= i < |active| ==> active[i] in links;
      AttachedKnowledge(active, knowledge)
    }
  }

  /** The recursive soft delete flags each row on its own. */
  lemma SoftDeleteIsFlagged(links: seq<Link>, conversationId: string)
    ensures SoftDelete(links, conversationId) == seq(|links|, i requires 0 <= i < |links| => Flagged(links[i], conversationId))
  {
  }

  /** Soft-deleting the same conversation twice leaves the table as soft-deleting it once. */
  lemma DeleteIdempotent(links: seq<Link>, conversationId: string)
    ensures SoftDelete(SoftDelete(links, conversationId), conversationId) == SoftDelete(links, conversationId)
  {
  }

  /** After the soft delete of a conversation, its active-links query is empty. */
  lemma {:induction false} NoActiveLinkAfterDelete(links: seq<Link>, conversationId: string)
    ensures ActiveLinks(SoftDelete(links, conversationId), conversationId) == []
  {
    if links != [] {
      NoActiveLinkAfterDelete(links[1..], conversationId);
    }
  }

  /** The soft delete of one conversation leaves the active links of every other conversation as they were. */
  lemma {:induction false} DeleteKeepsOtherConversations(links: seq<Link>, conversationId: string, other: string)
    requires other != conversationId
    ensures ActiveLinks(SoftDelete(links, conversationId), other) == ActiveLinks(links, other)
  {
    if links != [] {
      DeleteKeepsOtherConversations(links[1..], conversationId, other);
    }
  }

  /** A soft-deleted row keeps its key: the pair still blocks a new insert of the same key. */
  lemma DeleteKeepsKeys(links: seq<Link>, conversationId: string, c: string, k: string)
    ensures HasKey(SoftDelete(links, conversationId), c, k) <==> HasKey(links, c, k)
  {
    var r := SoftDelete(links, conversationId);
    if HasKey(r, c, k) {
      var i :| 0 <= i < |r| && r[i].conversationId == c && r[i].knowledgeBaseId == k;
      assert links[i].conversationId == c && links[i].knowledgeBaseId == k;
    }
    if HasKey(links, c, k) {
      var i :| 0 <= i < |links| && links[i].conversationId == c && links[i].knowledgeBaseId == k;
      assert r[i].conversationId == c && r[i].knowledgeBaseId == k;
    }
  }

  /** The active-links query keeps table order: on a table split in two it returns the first part's links, then the second's. */
  lemma {:induction false} ActiveLinksInTableOrder(front: seq<Link>, back: seq<Link>, conversationId: string)
    ensures ActiveLinks(front + back, conversationId) == ActiveLinks(front, conversationId) + ActiveLinks(back, conversationId)
  {
    if front != [] {
      assert (front + back)[1..] == front[1..] + back;
      ActiveLinksInTableOrder(front[1..], back, conversationId);
    } else {
      assert front + back == back;
    }
  }

  /** A link just created is the last active link of its conversation, after the ones that were there. */
  lemma CreatedLinkIsActive(links: seq<Link>, conversationId: string, knowledgeId: string)
    ensures ActiveLinks(links + [Link(conversationId, knowledgeId, 0)], conversationId)
         == ActiveLinks(links, conversationId) + [Link(conversationId, knowledgeId, 0)]
  {
    ActiveLinksInTableOrder(links, [Link(conversationId, knowledgeId, 0)], conversationId);
  }

  /** The attached knowledge follows link order: on links split in two it is the first part's result, then the second's. */
  lemma {:induction false} AttachedKnowledgeInLinkOrder(front: seq<Link>, back: seq<Link>, knowledge: map<string, Knowledge>)
    requires forall i :: 0 <= i < |front| ==> front[i].knowledgeBaseId in knowledge
    requires forall i :: 0 <= i < |back| ==> back[i].knowledgeBaseId in knowledge
    ensures forall i :: 0 <= i < |front + back| ==> (front + back)[i].knowledgeBaseId in knowledge
    ensures AttachedKnowledge(front + back, knowledge) == AttachedKnowledge(front, knowledge) + AttachedKnowledge(back, knowledge)
  {
    assert forall i :: 0 <= i < |front + back| ==> (front + back)[i] == if i < |front| then front[i] else back[i - |front|];
    if front != [] {
      assert (front + back)[1..] == front[1..] + back;
      AttachedKnowledgeInLinkOrder(front[1..], back, knowledge);
    } else {
      assert front + back == back;
    }
  }
}
