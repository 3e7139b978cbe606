/**
 * The friends page (src/pages/Friends.tsx): the friends list with its search and status
 * badges, the received game invites, the friend-request box and the sent invites.
 */
module Friends {
  import opened Common

  /** A friend; `inGame` is the optional flag of the page, absent read as false. */
  datatype Friend = Friend(id: int, username: string, status: string, rating: int, lastSeen: string, inGame: bool)

  /** A received game invite. */
  datatype Invite = Invite(id: int, sender: string, timeControl: string)

  /** A game invite the user has sent. */
  datatype SentInvite = SentInvite(id: int, recipient: string, timeControl: string, status: string)

  const MockFriends: seq<Friend> := [
    Friend(1, "أحمد محمد", "online", 1245, "الآن", false),
    Friend(2, "سارة أحمد", "in-game", 1156, "منذ 5 دقائق", true),
    Friend(3, "عمر خالد", "offline", 1332, "منذ ساعتين", false)
  ]

  const MockInvites: seq<Invite> := [
    Invite(1, "ليلى أحمد", "10"),
    Invite(2, "يوسف محمد", "5")
  ]

  const MockPendingInvites: seq<SentInvite> := [
    SentInvite(1, "فاطمة سالم", "15", "pending")
  ]

  /** Where accepting an invite leads, one second later. */
  const InvitedGamePath := "/game?id=invited_game_123"

  // ---------------------------------------------------------------------------
  // Status badge and invite control (lines 230-238, 351)
  // ---------------------------------------------------------------------------

  datatype FriendBadge = OnlineBadge | InGameBadge | OfflineBadge

  /**
   * `getStatusBadge(status, inGame)`: online only when online and not in a game; in a game
   * when the status says so or the flag is set; offline otherwise.
   */
  function StatusBadge(status: string, inGame: bool): (b: FriendBadge)
    ensures b == OnlineBadge <==> status == "online" && !inGame
    ensures b == InGameBadge <==> (status == "in-game" || inGame) && !(status == "online" && !inGame)
    ensures b == OfflineBadge <==> status != "online" && status != "in-game" && !inGame
  {
    if status == "online" && !inGame then OnlineBadge
    else if status == "in-game" || inGame then InGameBadge
    else OfflineBadge
  }

  /** The time-control picker and the "invite to play" button are offered to this friend. */
  predicate OffersGameInvite(f: Friend)
    ensures OffersGameInvite(f) ==> !f.inGame && f.status != "in-game" && f.status != "offline"
    ensures f.status == "online" && !f.inGame ==> OffersGameInvite(f)
  {
    f.status == "online" && !f.inGame
  }

  /** A friend can be invited exactly when their badge says online. */
  lemma InviteOnlyWhenOnlineBadge(f: Friend)
    ensures OffersGameInvite(f) <==> StatusBadge(f.status, f.inGame) == OnlineBadge
    ensures f.inGame ==> !OffersGameInvite(f) && StatusBadge(f.status, f.inGame) == InGameBadge
  {
  }

  // ---------------------------------------------------------------------------
  // Search: filteredFriends (lines 240-242)
  // ---------------------------------------------------------------------------

  /** The lower-cased term occurs in the lower-cased username (the only field searched). */
  predicate MatchesSearch(f: Friend, term: string) {
    Includes(Lower(f.username), Lower(term))
  }

  function FilteredFriends(friends: seq<Friend>, term: string): (r: seq<Friend>)
    ensures forall f :: f in r <==> f in friends && MatchesSearch(f, term)
    ensures |r| <= |friends|
  {
    Filter(friends, (f: Friend) => MatchesSearch(f, term))
  }

  /** An empty search box lists every friend, in order. */
  lemma EmptySearchListsAll(friends: seq<Friend>)
    ensures FilteredFriends(friends, "") == friends
  {
    forall i | 0 <= i < |friends| ensures MatchesSearch(friends[i], "") {
      EmptyIncluded(Lower(friends[i].username));
    }
    FilterKeepsAll(friends, (f: Friend) => MatchesSearch(f, ""));
  }

  // ---------------------------------------------------------------------------
  // Received invites: acceptInvite / declineInvite (lines 189-228)
  // ---------------------------------------------------------------------------

  /** `invites.filter(inv => inv.id !== id)` */
  function WithoutInvite(invites: seq<Invite>, id: int): (r: seq<Invite>)
    ensures forall v :: v in r <==> v in invites && v.id != id
    ensures forall v: Invite :: v.id != id ==> multiset(r)[v] == multiset(invites)[v]
  {
    var keep := (v: Invite) => v.id != id;
    FilterCounts(invites, keep);
    Filter(invites, keep)
  }

  /** Removal keeps the surviving invites in their order. */
  lemma WithoutInviteKeepsOrder(front: seq<Invite>, back: seq<Invite>, id: int)
    ensures WithoutInvite(front + back, id) == WithoutInvite(front, id) + WithoutInvite(back, id)
  {
    FilterAppend(front, back, (v: Invite) => v.id != id);
  }

  /** Removing the same invite twice is the same as removing it once. */
  lemma WithoutInviteIdempotent(invites: seq<Invite>, id: int)
    ensures WithoutInvite(WithoutInvite(invites, id), id) == WithoutInvite(invites, id)
  {
    FilterIdempotent(invites, (v: Invite) => v.id != id);
  }

  // ---------------------------------------------------------------------------
  // The page's state
  // ---------------------------------------------------------------------------

  /**
   * The friend-request button is enabled while the search box is not empty (`!searchTerm`);
   * nothing trims the term, so a name of spaces alone still enables it.
   */
  predicate RequestButtonEnabled(term: string)
    ensures RequestButtonEnabled(term) <==> |term| > 0
    ensures |term| > 0 && IsBlank(term) ==> RequestButtonEnabled(term)
  {
    term != ""
  }

  class FriendsPage {
    var searchTerm: string
    var selectedTime: string
    var friends: seq<Friend>
    var invites: seq<Invite>
    var pendingInvites: seq<SentInvite>
    /** Navigations scheduled by the handlers, in order. */
    var scheduledNavigations: seq<string>

    constructor ()
      ensures searchTerm == "" && selectedTime == "10"
      ensures friends == [] && invites == [] && pendingInvites == [] && scheduledNavigations == []
    {
      searchTerm := "";
      selectedTime := "10";
      friends := [];
      invites := [];
      pendingInvites := [];
      scheduledNavigations := [];
    }

    /** `loadFriendsData` */
    method LoadFriendsData()
      modifies this`friends
      ensures friends == MockFriends
    {
      friends := MockFriends;
    }

    /** `loadInvites`: the only writer of the sent-invites list. */
    method LoadInvites()
      modifies this`invites, this`pendingInvites
      ensures invites == MockInvites && pendingInvites == MockPendingInvites
    {
      invites := MockInvites;
      pendingInvites := MockPendingInvites;
    }

    method SetSearchTerm(term: string)
      modifies this`searchTerm
      ensures searchTerm == term
    {
      searchTerm := term;
    }

    method SetSelectedTime(t: string)
      modifies this`selectedTime
      ensures selectedTime == t
    {
      selectedTime := t;
    }

    /** `sendFriendRequest(username)`: the request is announced and the search box is cleared. */
    method SendFriendRequest(username: string)
      modifies this`searchTerm
      ensures searchTerm == "" && !RequestButtonEnabled(searchTerm)
    {
      searchTerm := "";
    }

    /**
     * `acceptInvite(id)`: the invite leaves the list and the game page is scheduled; the
     * sent invites are untouched.
     */
    method AcceptInvite(id: int)
      modifies this`invites, this`scheduledNavigations
      ensures invites == WithoutInvite(old(invites), id)
      ensures scheduledNavigations == old(scheduledNavigations) + [InvitedGamePath]
      ensures pendingInvites == old(pendingInvites)
    {
      invites := WithoutInvite(invites, id);
      scheduledNavigations := scheduledNavigations + [InvitedGamePath];
    }

    /** `declineInvite(id)`: the invite leaves the list; nothing else changes. */
    method DeclineInvite(id: int)
      modifies this`invites
      ensures invites == WithoutInvite(old(invites), id)
      ensures pendingInvites == old(pendingInvites)
    {
      invites := WithoutInvite(invites, id);
    }

    /** The friends shown under the search box. */
    function ListedFriends(): (r: seq<Friend>)
      reads this
      ensures forall f :: f in r <==> f in friends && MatchesSearch(f, searchTerm)
    {
      FilteredFriends(friends, searchTerm)
    }
  }
}
