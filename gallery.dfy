/**
 * The gallery's window onto a conversation's media messages: a list of
 * items that grows by pages of 20 at either end, loading and done flags for
 * each end, and in-place updates when a message changes.
 */
module Gallery {
  import opened Wrappers
  import opened Strings

  datatype Category = Image | Video | Live
  datatype MediaStatus = Pending | Done | Canceled | Expired | Read

  /** One media message as the gallery shows it; `content` stands for its remaining fields. */
  datatype GalleryItem = GalleryItem(messageId: string, category: Category, mediaStatus: MediaStatus, content: string)

  /** Page size of one fetch. */
  const FetchItemsCount := 20

  /** A fetch handed to the message store: `count` items before (negative) or after (positive) `location`. */
  datatype FetchRequest = FetchRequest(conversationId: string, location: GalleryItem, count: int)

  /** What a conversation-change notification says happened. */
  datatype ChangeAction =
    | UpdateMessage(messageId: string)
    | UpdateDownloadProgress(messageId: string)
    | UpdateMediaStatus(messageId: string, mediaStatus: MediaStatus)
    | RecallMessage(messageId: string)
    | OtherChange

  datatype ConversationChange = ConversationChange(conversationId: string, action: ChangeAction)

  // ---------------------------------------------------------------------
  // Searching the list

  /** Position of the last occurrence of `item`, or |items| when there is none. */
  function LastIndex(items: seq<GalleryItem>, item: GalleryItem): (i: nat)
    ensures i <= |items|
    ensures i < |items| ==> items[i] == item
    ensures forall j :: i < j < |items| ==> items[j] != item
    ensures i == |items| ==> item !in items
  {
    if items == [] then 0
    else if items[|items| - 1] == item then |items| - 1
    else
      var k := LastIndex(items[..|items| - 1], item);
      if k == |items| - 1 then |items| else k
  }

  /** Position of the first item of message `id`, or |items| when there is none. */
  function IndexOfMessage(items: seq<GalleryItem>, id: string): (i: nat)
    ensures i <= |items|
    ensures i < |items| ==> items[i].messageId == id
    ensures forall j :: 0 <= j < i ==> items[j].messageId != id
  {
    if items == [] then 0
    else if items[0].messageId == id then 0
    else 1 + IndexOfMessage(items[1..], id)
  }

  predicate HasMessage(items: seq<GalleryItem>, id: string) {
    exists j :: 0 <= j < |items| && items[j].messageId == id
  }

  lemma IndexOfMessageFound(items: seq<GalleryItem>, id: string)
    ensures IndexOfMessage(items, id) < |items| <==> HasMessage(items, id)
  {
  }

  // ---------------------------------------------------------------------
  // Reference definitions of the in-place updates, element by element

  /** The list with the first item of message `id` dropped. */
  function WithoutFirstMessage(items: seq<GalleryItem>, id: string): seq<GalleryItem> {
    if items == [] then []
    else if items[0].messageId == id then items[1..]
    else [items[0]] + WithoutFirstMessage(items[1..], id)
  }

  /** The list with the media status of the first item of message `id` replaced. */
  function WithFirstMediaStatus(items: seq<GalleryItem>, id: string, status: MediaStatus): seq<GalleryItem> {
    if items == [] then []
    else if items[0].messageId == id then [items[0].(mediaStatus := status)] + items[1..]
    else [items[0]] + WithFirstMediaStatus(items[1..], id, status)
  }

  /** The list with the first item of message `item.messageId` replaced by `item`. */
  function WithFirstReplaced(items: seq<GalleryItem>, item: GalleryItem): seq<GalleryItem> {
    if items == [] then []
    else if items[0].messageId == item.messageId then [item] + items[1..]
    else [items[0]] + WithFirstReplaced(items[1..], item)
  }

  /** Removing drops exactly the item at the first index of the message, keeping the order of the rest. */
  lemma {:induction false} WithoutFirstMessageAt(items: seq<GalleryItem>, id: string)
    ensures var i := IndexOfMessage(items, id);
      WithoutFirstMessage(items, id) == if i == |items| then items else items[..i] + items[i + 1..]
  {
    if items == [] {
    } else if items[0].messageId == id {
      assert items[..0] + items[1..] == items[1..];
    } else {
      var t := items[1..];
      WithoutFirstMessageAt(t, id);
      var j := IndexOfMessage(t, id);
      assert IndexOfMessage(items, id) == j + 1;
      assert WithoutFirstMessage(items, id) == [items[0]] + WithoutFirstMessage(t, id);
      if j < |t| {
        ConsSplice(items[0], t, j);
        assert [items[0]] + t == items;
      } else {
        assert [items[0]] + t == items;
      }
    }
  }

  /** Dropping position j of a list and then putting x in front drops position j + 1 of x's list. */
  lemma ConsSplice(x: GalleryItem, t: seq<GalleryItem>, j: nat)
    requires j < |t|
    ensures [x] + (t[..j] + t[j + 1..]) == ([x] + t)[..j + 1] + ([x] + t)[j + 2..]
  {
    assert ([x] + t)[..j + 1] == [x] + t[..j];
    assert ([x] + t)[j + 2..] == t[j + 1..];
  }

  /** A status update touches only the status of the item at the first index of the message. */
  lemma {:induction false} WithFirstMediaStatusAt(items: seq<GalleryItem>, id: string, status: MediaStatus)
    ensures var i := IndexOfMessage(items, id);
      WithFirstMediaStatus(items, id, status)
      == if i == |items| then items else items[i := items[i].(mediaStatus := status)]
  {
    if items != [] && items[0].messageId != id {
      WithFirstMediaStatusAt(items[1..], id, status);
    }
  }

  /** A message update replaces only the item at the first index of the message. */
  lemma {:induction false} WithFirstReplacedAt(items: seq<GalleryItem>, item: GalleryItem)
    ensures var i := IndexOfMessage(items, item.messageId);
      WithFirstReplaced(items, item) == if i == |items| then items else items[i := item]
  {
    if items != [] && items[0].messageId != item.messageId {
      WithFirstReplacedAt(items[1..], item);
    }
  }

  /**
   * Removing a present message shortens the list by one and loses exactly
   * one of its items; an absent message leaves the list as it is.
   */
  lemma {:induction false} WithoutFirstMessageCounts(items: seq<GalleryItem>, id: string)
    ensures HasMessage(items, id) ==>
      |WithoutFirstMessage(items, id)| == |items| - 1
      && multiset(WithoutFirstMessage(items, id)) + multiset{items[IndexOfMessage(items, id)]} == multiset(items)
    ensures !HasMessage(items, id) ==> WithoutFirstMessage(items, id) == items
  {
    WithoutFirstMessageAt(items, id);
    IndexOfMessageFound(items, id);
    var i := IndexOfMessage(items, id);
    if i < |items| {
      assert items == items[..i] + [items[i]] + items[i + 1..];
    }
  }

  /** A status update keeps the length, every message id and every other item, and changes only the status. */
  lemma WithFirstMediaStatusKeeps(items: seq<GalleryItem>, id: string, status: MediaStatus)
    ensures var r := WithFirstMediaStatus(items, id, status);
      && |r| == |items|
      && (forall j :: 0 <= j < |items| ==> r[j].messageId == items[j].messageId)
      && (forall j :: 0 <= j < |items| && j != IndexOfMessage(items, id) ==> r[j] == items[j])
      && (HasMessage(items, id) ==> r[IndexOfMessage(items, id)] == items[IndexOfMessage(items, id)].(mediaStatus := status))
  {
    WithFirstMediaStatusAt(items, id, status);
    IndexOfMessageFound(items, id);
  }

  // ---------------------------------------------------------------------
  // The controller

  class GalleryItemModelController {
    var conversationId: string
    var items: seq<GalleryItem>
    var didLoadEarliestItem: bool
    var didLoadLatestItem: bool
    var isLoadingBefore: bool
    var isLoadingAfter: bool

    constructor()
      ensures conversationId == "" && items == []
      ensures !didLoadEarliestItem && !didLoadLatestItem && !isLoadingBefore && !isLoadingAfter
    {
      conversationId := "";
      items := [];
      didLoadEarliestItem, didLoadLatestItem := false, false;
      isLoadingBefore, isLoadingAfter := false, false;
    }

    /** Switching conversation (even to the same one) forgets that either end was reached. */
    method SetConversationId(id: string)
      modifies this`conversationId, this`didLoadEarliestItem, this`didLoadLatestItem
      ensures conversationId == id && !didLoadEarliestItem && !didLoadLatestItem
    {
      conversationId := id;
      didLoadEarliestItem := false;
      didLoadLatestItem := false;
    }

    /** The item at `index`, when there is one. */
    function DequeueOf(index: int): (r: Option<GalleryItem>)
      reads this
      ensures r.Some? <==> 0 <= index < |items|
      ensures r.Some? ==> r.value == items[index]
    {
      if 0 <= index < |items| then Some(items[index]) else None
    }

    /** Starts loading a page before the first item, unless that end is done or loading, or the list is empty. */
    method FetchMoreItemsBefore() returns (request: Option<FetchRequest>)
      modifies this`isLoadingBefore
      ensures request.Some? <==> !didLoadEarliestItem && !old(isLoadingBefore) && items != []
      ensures request.Some? ==>
        isLoadingBefore && request.value == FetchRequest(conversationId, items[0], -FetchItemsCount)
      ensures request.None? ==> isLoadingBefore == old(isLoadingBefore)
    {
      if didLoadEarliestItem || isLoadingBefore || items == [] {
        return None;
      }
      isLoadingBefore := true;
      request := Some(FetchRequest(conversationId, items[0], -FetchItemsCount));
    }

    /** Starts loading a page after the last item, unless that end is done or loading, or the list is empty. */
    method FetchMoreItemsAfter() returns (request: Option<FetchRequest>)
      modifies this`isLoadingAfter
      ensures request.Some? <==> !didLoadLatestItem && !old(isLoadingAfter) && items != []
      ensures request.Some? ==>
        isLoadingAfter && request.value == FetchRequest(conversationId, items[|items| - 1], FetchItemsCount)
      ensures request.None? ==> isLoadingAfter == old(isLoadingAfter)
    {
      if didLoadLatestItem || isLoadingAfter || items == [] {
        return None;
      }
      isLoadingAfter := true;
      request := Some(FetchRequest(conversationId, items[|items| - 1], FetchItemsCount));
    }

    /**
     * The page before arrived. If the conversation is still the one it was
     * requested for, the items go in front, the earliest end is reached when
     * the page is short, and loading is over; otherwise it is discarded and
     * nothing changes, not even the loading flag.
     */
    method FetchBeforeCompleted(request: FetchRequest, fetched: seq<GalleryItem>)
      modifies this`items, this`didLoadEarliestItem, this`isLoadingBefore
      ensures request.conversationId == conversationId ==>
        items == fetched + old(items) && didLoadEarliestItem == (|fetched| < FetchItemsCount) && !isLoadingBefore
      ensures request.conversationId != conversationId ==>
        items == old(items) && didLoadEarliestItem == old(didLoadEarliestItem) && isLoadingBefore == old(isLoadingBefore)
    {
      if request.conversationId != conversationId {
        return;
      }
      items := fetched + items;
      didLoadEarliestItem := |fetched| < FetchItemsCount;
      isLoadingBefore := false;
    }

    /** The page after arrived; as for the page before, at the other end. */
    method FetchAfterCompleted(request: FetchRequest, fetched: seq<GalleryItem>)
      modifies this`items, this`didLoadLatestItem, this`isLoadingAfter
      ensures request.conversationId == conversationId ==>
        items == old(items) + fetched && didLoadLatestItem == (|fetched| < FetchItemsCount) && !isLoadingAfter
      ensures request.conversationId != conversationId ==>
        items == old(items) && didLoadLatestItem == old(didLoadLatestItem) && isLoadingAfter == old(isLoadingAfter)
    {
      if request.conversationId != conversationId {
        return;
      }
      items := items + fetched;
      didLoadLatestItem := |fetched| < FetchItemsCount;
      isLoadingAfter := false;
    }

    /**
     * Shows `item`. A listed item is shown at its first position; an unlisted
     * one replaces the whole list. Near an end (within two of the last, or at
     * most one from the first) a page is requested for that end. The item is
     * always at the returned index, so the look-up that follows never fails.
     */
    method DequeueWith(item: GalleryItem) returns (index: nat, after: Option<FetchRequest>, before: Option<FetchRequest>)
      modifies this`items, this`isLoadingAfter, this`isLoadingBefore
      ensures index < |items| && items[index] == item && DequeueOf(index) == Some(item)
      ensures item in old(items) ==> items == old(items) && index == FirstIndexOf(items, item)
      ensures item !in old(items) ==> items == [item] && index == 0
      ensures after.Some? <==> index + 2 >= |items| && !didLoadLatestItem && !old(isLoadingAfter)
      ensures after.Some? ==> after.value == FetchRequest(conversationId, items[|items| - 1], FetchItemsCount)
      ensures before.Some? <==> index <= 1 && !didLoadEarliestItem && !old(isLoadingBefore)
      ensures before.Some? ==> before.value == FetchRequest(conversationId, items[0], -FetchItemsCount)
      ensures isLoadingAfter == (old(isLoadingAfter) || after.Some?)
      ensures isLoadingBefore == (old(isLoadingBefore) || before.Some?)
    {
      index := FirstIndexOf(items, item);
      if index < |items| {
        after, before := None, None;
        if index + 2 >= |items| {
          after := FetchMoreItemsAfter();
        }
        if index <= 1 {
          before := FetchMoreItemsBefore();
        }
      } else {
        items := [item];
        index := 0;
        after := FetchMoreItemsAfter();
        before := FetchMoreItemsBefore();
      }
    }

    /**
     * The page to the left of a shown item: the item before its first
     * occurrence. Being at most one from the first item requests the page before.
     */
    method ViewControllerBefore(shown: Option<GalleryItem>) returns (r: Option<GalleryItem>, before: Option<FetchRequest>)
      modifies this`isLoadingBefore
      ensures shown.None? || shown.value !in items ==> r.None? && before.None? && isLoadingBefore == old(isLoadingBefore)
      ensures shown.Some? && shown.value in items ==>
        var i := FirstIndexOf(items, shown.value);
        && r == DequeueOf(i - 1)
        && (r.Some? <==> i >= 1)
        && (before.Some? <==> i <= 1 && !didLoadEarliestItem && !old(isLoadingBefore) && items != [])
        && isLoadingBefore == (old(isLoadingBefore) || before.Some?)
    {
      r, before := None, None;
      if shown.Some? {
        var i := FirstIndexOf(items, shown.value);
        if i < |items| {
          if i <= 1 {
            before := FetchMoreItemsBefore();
          }
          r := DequeueOf(i - 1);
        }
      }
    }

    /**
     * The page to the right of a shown item: the item after its last
     * occurrence. Being within two of the last item requests the page after.
     */
    method ViewControllerAfter(shown: Option<GalleryItem>) returns (r: Option<GalleryItem>, after: Option<FetchRequest>)
      modifies this`isLoadingAfter
      ensures shown.None? || shown.value !in items ==> r.None? && after.None? && isLoadingAfter == old(isLoadingAfter)
      ensures shown.Some? && shown.value in items ==>
        var i := LastIndex(items, shown.value);
        && r == DequeueOf(i + 1)
        && (r.Some? <==> i + 1 < |items|)
        && (after.Some? <==> i + 2 >= |items| && !didLoadLatestItem && !old(isLoadingAfter))
        && isLoadingAfter == (old(isLoadingAfter) || after.Some?)
    {
      r, after := None, None;
      if shown.Some? {
        var i := LastIndex(items, shown.value);
        if i < |items| {
          if i + 2 >= |items| {
            after := FetchMoreItemsAfter();
          }
          r := DequeueOf(i + 1);
        }
      }
    }

    /** A changed message that is listed is to be reloaded; an unlisted one is ignored. */
    method UpdateMessageBegin(messageId: string) returns (reload: Option<string>)
      ensures reload.Some? <==> HasMessage(items, messageId)
      ensures reload.Some? ==> reload.value == messageId
    {
      IndexOfMessageFound(items, messageId);
      if IndexOfMessage(items, messageId) < |items| {
        reload := Some(messageId);
      } else {
        reload := None;
      }
    }

    /**
     * The reloaded message arrived (None when it is gone or no longer a
     * gallery item): it replaces the first item of its message, if still listed.
     */
    method UpdateMessageCompleted(loaded: Option<GalleryItem>)
      modifies this`items
      ensures loaded.None? ==> items == old(items)
      ensures loaded.Some? ==> items == WithFirstReplaced(old(items), loaded.value)
    {
      if loaded.Some? {
        WithFirstReplacedAt(items, loaded.value);
        var index := IndexOfMessage(items, loaded.value.messageId);
        if index < |items| {
          items := items[index := loaded.value];
        }
      }
    }

    /** Sets the media status of the first item of the message, if listed. */
    method UpdateMediaStatus(messageId: string, mediaStatus: MediaStatus)
      modifies this`items
      ensures items == WithFirstMediaStatus(old(items), messageId, mediaStatus)
    {
      WithFirstMediaStatusAt(items, messageId, mediaStatus);
      var index := IndexOfMessage(items, messageId);
      if index < |items| {
        items := items[index := items[index].(mediaStatus := mediaStatus)];
      }
    }

    /** Removes the first item of the message, if listed. */
    method RemoveItem(messageId: string)
      modifies this`items
      ensures items == WithoutFirstMessage(old(items), messageId)
    {
      WithoutFirstMessageAt(items, messageId);
      var index := IndexOfMessage(items, messageId);
      if index < |items| {
        items := items[..index] + items[index + 1..];
      }
    }

    /**
     * A change notification for another conversation is ignored; one for this
     * conversation updates, re-statuses or removes the item of its message. A
     * message update only asks for the message to be reloaded.
     */
    method ConversationDidChange(change: ConversationChange) returns (reload: Option<string>)
      modifies this`items
      ensures change.conversationId != conversationId ==> items == old(items) && reload.None?
      ensures change.conversationId == conversationId ==>
        match change.action
        case UpdateMessage(id) =>
          items == old(items) && (reload.Some? <==> HasMessage(items, id)) && (reload.Some? ==> reload.value == id)
        case UpdateMediaStatus(id, status) =>
          items == WithFirstMediaStatus(old(items), id, status) && reload.None?
        case RecallMessage(id) =>
          items == WithoutFirstMessage(old(items), id) && reload.None?
        case _ => items == old(items) && reload.None?
    {
      reload := None;
      if change.conversationId != conversationId {
        return;
      }
      match change.action {
        case UpdateMessage(id) =>
          reload := UpdateMessageBegin(id);
        case UpdateMediaStatus(id, status) =>
          UpdateMediaStatus(id, status);
        case RecallMessage(id) =>
          RemoveItem(id);
        case _ =>
      }
    }
  }
}
