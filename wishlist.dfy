/** The wishlist store: the server's copy of the signed-in customer's
    wishlist, replaced by whatever list the server answers after a toggle
    or a removal. */
module Wishlist {
  import opened Common
  import opened Toasts
  import opened Accounts

  /** One entry as the server sends it: a populated product (whose id may
      be missing) or a bare product id. */
  datatype WishlistItem = ItemObject(objectId: Option<string>) | ItemId(text: string)

  /** The server's answer to a wishlist call: the new list (empty when it
      sent none) and its message ("" when it sent none). */
  datatype WishlistReply = WishlistReply(wishlist: seq<WishlistItem>, message: string)

  /** What `toggleWishlist` and `removeFromWishlist` resolve to. */
  datatype Outcome = Outcome(success: bool, message: string)

  datatype WishlistRequest = GetWishlist | Toggle(productId: string) | Remove(productId: string)

  const ToggleFailedMessage := "Failed to update wishlist"
  const RemoveFailedMessage := "Failed to remove from wishlist"

  /** The id an entry stands for, if any. */
  function ItemKey(item: WishlistItem): Option<string>
  {
    match item
    case ItemObject(id) => id
    case ItemId(text) => Some(text)
  }

  /** `isInWishlist`: some entry stands for the product. */
  function IsInWishlist(wishlist: seq<WishlistItem>, productId: string): (r: bool)
    ensures r <==> exists i :: 0 <= i < |wishlist| && ItemKey(wishlist[i]) == Some(productId)
  {
    if wishlist == [] then false
    else if ItemKey(wishlist[0]) == Some(productId) then true
    else
      var rest := IsInWishlist(wishlist[1..], productId);
      assert rest ==> exists i :: 0 <= i < |wishlist| && ItemKey(wishlist[i]) == Some(productId) by {
        if rest {
          var k :| 0 <= k < |wishlist[1..]| && ItemKey(wishlist[1..][k]) == Some(productId);
          assert wishlist[k + 1] == wishlist[1..][k];
        }
      }
      assert (exists i :: 0 <= i < |wishlist| && ItemKey(wishlist[i]) == Some(productId)) ==> rest by {
        if exists i :: 0 <= i < |wishlist| && ItemKey(wishlist[i]) == Some(productId) {
          var k :| 0 <= k < |wishlist| && ItemKey(wishlist[k]) == Some(productId);
          assert k != 0;
          assert wishlist[1..][k - 1] == wishlist[k];
        }
      }
      rest
  }

  /** An entry whose object carries no id never marks any product. */
  lemma IdlessEntriesMarkNothing(productId: string)
    ensures !IsInWishlist([ItemObject(None)], productId)
    ensures IsInWishlist([ItemObject(Some(productId))], productId)
    ensures IsInWishlist([ItemId(productId)], productId)
  {
    assert [ItemObject(None)][0] == ItemObject(None);
    assert [ItemObject(Some(productId))][0] == ItemObject(Some(productId));
    assert [ItemId(productId)][0] == ItemId(productId);
  }

  class WishlistStore {
    var wishlist: seq<WishlistItem>
    var loading: bool
    var requests: seq<WishlistRequest>
    var notices: seq<Notice>

    constructor ()
      ensures wishlist == [] && !loading && requests == [] && notices == []
    {
      wishlist := [];
      loading := false;
      requests := [];
      notices := [];
    }

    /** The effect that runs whenever the signed-in user changes: a
        customer's list is requested (see `FinishFetch` for the reply),
        anyone else's is emptied without a request. */
    method UserChanged(user: Option<User>)
      modifies this
      ensures IsCustomer(user) ==>
        requests == old(requests) + [GetWishlist] && loading && wishlist == old(wishlist)
      ensures !IsCustomer(user) ==>
        requests == old(requests) && loading == old(loading) && wishlist == []
      ensures notices == old(notices)
    {
      if IsCustomer(user) {
        Send(GetWishlist);
      } else {
        wishlist := [];
      }
    }

    /** The first half of `fetchWishlist`, `toggleWishlist` and
        `removeFromWishlist`: loading turns on and the request goes out;
        nothing else changes until the reply. */
    method Send(request: WishlistRequest)
      modifies this
      ensures loading && requests == old(requests) + [request]
      ensures wishlist == old(wishlist) && notices == old(notices)
    {
      loading := true;
      requests := requests + [request];
    }

    /** The second half of `fetchWishlist`: a failure empties the list (and
        is only logged); loading ends off either way. */
    method FinishFetch(reply: Reply<seq<WishlistItem>>)
      modifies this
      ensures !loading && requests == old(requests) && notices == old(notices)
      ensures reply.Ok? ==> wishlist == reply.payload
      ensures reply.Err? ==> wishlist == []
    {
      wishlist := if reply.Ok? then reply.payload else [];
      loading := false;
    }

    /** The second half of `toggleWishlist`: on success the server's list
        replaces the local one and its message is toasted; on failure the
        list is kept and the server's message, or a default, is toasted.
        Either way loading ends off and the outcome is returned, never
        thrown. */
    method FinishToggle(reply: Reply<WishlistReply>) returns (r: Outcome)
      modifies this
      ensures requests == old(requests) && !loading
      ensures reply.Ok? ==>
        wishlist == reply.payload.wishlist && r == Outcome(true, reply.payload.message)
        && notices == old(notices) + [Notice(Success, reply.payload.message)]
      ensures reply.Err? ==>
        wishlist == old(wishlist) && r == Outcome(false, OrElse(reply.message, ToggleFailedMessage))
        && notices == old(notices) + [Notice(Error, r.message)]
    {
      r := Answer(reply, ToggleFailedMessage);
    }

    /** The second half of `removeFromWishlist`: as a toggle, with its own
        default message. */
    method FinishRemove(reply: Reply<WishlistReply>) returns (r: Outcome)
      modifies this
      ensures requests == old(requests) && !loading
      ensures reply.Ok? ==>
        wishlist == reply.payload.wishlist && r == Outcome(true, reply.payload.message)
        && notices == old(notices) + [Notice(Success, reply.payload.message)]
      ensures reply.Err? ==>
        wishlist == old(wishlist) && r == Outcome(false, OrElse(reply.message, RemoveFailedMessage))
        && notices == old(notices) + [Notice(Error, r.message)]
    {
      r := Answer(reply, RemoveFailedMessage);
    }

    /** The shared tail of a toggle and a removal. */
    method Answer(reply: Reply<WishlistReply>, fallback: string) returns (r: Outcome)
      modifies this
      ensures requests == old(requests) && !loading
      ensures reply.Ok? ==>
        wishlist == reply.payload.wishlist && r == Outcome(true, reply.payload.message)
        && notices == old(notices) + [Notice(Success, reply.payload.message)]
      ensures reply.Err? ==>
        wishlist == old(wishlist) && r == Outcome(false, OrElse(reply.message, fallback))
        && notices == old(notices) + [Notice(Error, r.message)]
    {
      match reply {
        case Ok(w) =>
          wishlist := w.wishlist;
          notices := notices + [Notice(Success, w.message)];
          r := Outcome(true, w.message);
        case Err(m) =>
          r := Outcome(false, OrElse(m, fallback));
          notices := notices + [Notice(Error, r.message)];
      }
      loading := false;
    }
  }
}
