/**
 * Items of the share extension's conversation search: built from a contact
 * or group conversation, or from a user, matched against a lower-cased
 * keyword, and identified by their conversation id alone.
 */
module ConversationSearch {
  import opened Wrappers
  import opened Strings

  const ContactCategory := "CONTACT"
  const GroupCategory := "GROUP"

  /** The conversation fields an item is built from. */
  datatype ConversationItem = ConversationItem(
    conversationId: string,
    category: Option<string>,
    name: string,
    iconUrl: string,
    ownerId: string,
    ownerFullName: string,
    ownerAvatarUrl: string,
    ownerIsBot: bool,
    ownerIsVerified: bool)

  datatype UserItem = UserItem(userId: string, fullName: string, avatarUrl: string, isBot: bool, isVerified: bool)

  datatype ConversationSearchItem = ConversationSearchItem(
    conversationId: string,
    name: string,
    userId: string,
    avatarUrl: string,
    iconUrl: string,
    category: string,
    isBot: bool,
    isVerified: bool)

  /** Only contact and group conversations make items; a contact is named after its owner, a group by its own name. */
  function FromConversation(c: ConversationItem): (r: Option<ConversationSearchItem>)
    ensures r.Some? <==> c.category == Some(ContactCategory) || c.category == Some(GroupCategory)
  {
    var name :=
      if c.category == Some(ContactCategory) then Some(c.ownerFullName)
      else if c.category == Some(GroupCategory) then Some(c.name)
      else None;
    match name
    case None => None
    case Some(n) =>
      Some(ConversationSearchItem(c.conversationId, n, c.ownerId, c.ownerAvatarUrl, c.iconUrl,
        c.category.GetOr(""), c.ownerIsBot, c.ownerIsVerified))
  }

  /**
   * An item made from a conversation has the conversation's category (so
   * CONTACT or GROUP), the name the category selects, and every other field
   * copied from the conversation and its owner.
   */
  lemma FromConversationFields(c: ConversationItem)
    requires FromConversation(c).Some?
    ensures var i := FromConversation(c).value;
      && Some(i.category) == c.category
      && (i.category == ContactCategory || i.category == GroupCategory)
      && i.name == (if i.category == ContactCategory then c.ownerFullName else c.name)
      && i.conversationId == c.conversationId && i.iconUrl == c.iconUrl
      && i.userId == c.ownerId && i.avatarUrl == c.ownerAvatarUrl
      && i.isBot == c.ownerIsBot && i.isVerified == c.ownerIsVerified
  {
  }

  /**
   * An item for a user: a contact whose conversation id the store derives
   * from the current user and the user, with no icon and the user's own fields.
   */
  function FromUser(u: UserItem, myUserId: string, makeConversationId: (string, string) -> string): (r: ConversationSearchItem)
    ensures r.category == ContactCategory && r.iconUrl == "" && r.name == u.fullName
    ensures r.conversationId == makeConversationId(myUserId, u.userId)
    ensures r.userId == u.userId && r.avatarUrl == u.avatarUrl && r.isBot == u.isBot && r.isVerified == u.isVerified
  {
    ConversationSearchItem(makeConversationId(myUserId, u.userId), u.fullName, u.userId, u.avatarUrl, "",
      ContactCategory, u.isBot, u.isVerified)
  }

  /**
   * Whether the (already lower-cased) keyword occurs in the lower-cased name;
   * Foundation's `contains` finds no empty keyword, so that matches nothing.
   */
  function Matches(item: ConversationSearchItem, keyword: string): (r: bool)
    ensures r <==> keyword != [] && IsSubstring(keyword, Lower(item.name))
  {
    Contains(Lower(item.name), keyword)
  }

  /** The empty keyword matches no item, and a non-empty name matches its own lower-cased form. */
  lemma MatchesBasics(item: ConversationSearchItem)
    ensures !Matches(item, "")
    ensures item.name != [] ==> Matches(item, Lower(item.name))
  {
    assert OccursAt(Lower(item.name), Lower(item.name), 0);
  }

  /** The case of the name does not matter to a match. */
  lemma MatchesIgnoresNameCase(item: ConversationSearchItem, keyword: string)
    ensures Matches(item, keyword) == Matches(item.(name := Lower(item.name)), keyword)
  {
    LowerIsLower(item.name);
  }

  /** A keyword that matches also matches with its ends cut off, as long as something is left. */
  lemma {:induction false} MatchesShorterKeyword(item: ConversationSearchItem, keyword: string, i: nat, j: nat)
    requires i < j <= |keyword|
    requires Matches(item, keyword)
    ensures Matches(item, keyword[i..j])
  {
    var s := Lower(item.name);
    var p: nat :| OccursAt(keyword, s, p);
    assert s[p + i..p + j] == keyword[i..j] by {
      assert s[p..p + |keyword|] == keyword;
      assert s[p + i..p + j] == s[p..p + |keyword|][i..j];
    }
    assert OccursAt(keyword[i..j], s, p + i);
  }

  /** Two items are equal when their conversation ids are. */
  predicate SameItem(a: ConversationSearchItem, b: ConversationSearchItem) {
    a.conversationId == b.conversationId
  }

  /** Items hash by their conversation id only; `hashString` stands for the per-process string hasher. */
  function Hash(item: ConversationSearchItem, hashString: string -> int): int {
    hashString(item.conversationId)
  }

  /** Item equality is an equivalence. */
  lemma SameItemIsEquivalence(a: ConversationSearchItem, b: ConversationSearchItem, c: ConversationSearchItem)
    ensures SameItem(a, a)
    ensures SameItem(a, b) ==> SameItem(b, a)
    ensures SameItem(a, b) && SameItem(b, c) ==> SameItem(a, c)
  {
  }

  /** Equal items hash alike, whatever the string hasher. */
  lemma EqualItemsHashAlike(a: ConversationSearchItem, b: ConversationSearchItem, hashString: string -> int)
    requires SameItem(a, b)
    ensures Hash(a, hashString) == Hash(b, hashString)
  {
  }

  /** Items that differ in every field but the conversation id are still equal. */
  lemma EqualityIgnoresOtherFields(a: ConversationSearchItem, name: string, userId: string, avatarUrl: string)
    ensures SameItem(a, a.(name := name, userId := userId, avatarUrl := avatarUrl))
  {
  }

  /**
   * A user and the contact conversation with that user give the same item:
   * when the conversation's id is the one the store derives for the user and
   * its owner is the user, the two items differ at most in the icon, so they
   * are equal and hash alike.
   */
  lemma FromUserIsContactItem(u: UserItem, myUserId: string, makeConversationId: (string, string) -> string,
                              c: ConversationItem, hashString: string -> int)
    requires c.category == Some(ContactCategory) && c.conversationId == makeConversationId(myUserId, u.userId)
    requires c.ownerId == u.userId && c.ownerFullName == u.fullName && c.ownerAvatarUrl == u.avatarUrl
    requires c.ownerIsBot == u.isBot && c.ownerIsVerified == u.isVerified
    ensures FromConversation(c).Some?
    ensures FromConversation(c).value == FromUser(u, myUserId, makeConversationId).(iconUrl := c.iconUrl)
    ensures SameItem(FromUser(u, myUserId, makeConversationId), FromConversation(c).value)
    ensures Hash(FromUser(u, myUserId, makeConversationId), hashString) == Hash(FromConversation(c).value, hashString)
  {
  }
}
