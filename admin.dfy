/**
 * The administration panel (src/pages/Admin.tsx): user moderation, forced game endings,
 * invite deletion, the user search and the status badges.
 *
 * The handlers replace the `users`, `games` and `invites` lists with mapped or filtered
 * copies; the pure list transformations are functions and the panel is a class whose
 * methods assign their results.
 */
module Admin {
  import opened Common

  datatype User = User(id: int, username: string, email: string, status: string,
                       rating: int, gamesPlayed: int, banned: bool)

  datatype Game = Game(id: string, whitePlayer: string, blackPlayer: string, status: string, moves: int)

  datatype Invite = Invite(id: int, sender: string, recipient: string, timeControl: string, status: string)

  const MockUsers: seq<User> := [
    User(1, "أحمد محمد", "ahmed@example.com", "online", 1245, 150, false),
    User(2, "سارة أحمد", "sara@example.com", "in-game", 1156, 89, false),
    User(3, "محمد سبام", "spam@example.com", "offline", 800, 15, true)
  ]

  const MockGames: seq<Game> := [
    Game("game_001", "أحمد محمد", "سارة أحمد", "active", 23),
    Game("game_002", "عمر خالد", "ليلى محمد", "finished", 45)
  ]

  const MockInvites: seq<Invite> := [
    Invite(1, "يوسف أحمد", "فاطمة سالم", "15+10", "pending")
  ]

  // ---------------------------------------------------------------------------
  // Moderation: banUser / unbanUser (lines 159-195)
  // ---------------------------------------------------------------------------

  /**
   * `users.map(user => user.id === id ? { ...user, banned } : user)`: exactly the users
   * with that id get the new flag; every other field and every other user is unchanged,
   * and the list keeps its length and order.
   */
  function SetBanned(users: seq<User>, id: int, banned: bool): (r: seq<User>)
    ensures |r| == |users|
    ensures forall i :: 0 <= i < |users| ==>
      r[i].banned == (if users[i].id == id then banned else users[i].banned)
      && r[i].(banned := users[i].banned) == users[i]
  {
    seq(|users|, i requires 0 <= i < |users| =>
      if users[i].id == id then users[i].(banned := banned) else users[i])
  }

  /** Banning (or unbanning) the same user twice is the same as doing it once. */
  lemma SetBannedIdempotent(users: seq<User>, id: int, banned: bool)
    ensures SetBanned(SetBanned(users, id, banned), id, banned) == SetBanned(users, id, banned)
  {
    var once := SetBanned(users, id, banned);
    var twice := SetBanned(once, id, banned);
    assert forall i :: 0 <= i < |once| ==> twice[i] == once[i];
  }

  /** The last of two moderation actions on the same user decides the flag. */
  lemma SetBannedLastWins(users: seq<User>, id: int, first: bool, second: bool)
    ensures SetBanned(SetBanned(users, id, first), id, second) == SetBanned(users, id, second)
  {
    var a := SetBanned(SetBanned(users, id, first), id, second);
    var b := SetBanned(users, id, second);
    assert forall i :: 0 <= i < |users| ==> a[i] == b[i];
  }

  /** Unbanning a user who was just banned restores the list, provided they were not banned before. */
  lemma BanThenUnbanRestores(users: seq<User>, id: int)
    requires forall i :: 0 <= i < |users| && users[i].id == id ==> !users[i].banned
    ensures SetBanned(SetBanned(users, id, true), id, false) == users
  {
    var r := SetBanned(SetBanned(users, id, true), id, false);
    assert forall i :: 0 <= i < |users| ==> r[i] == users[i];
  }

  // ---------------------------------------------------------------------------
  // Games: endGame (lines 197-214) and the status column (lines 460-476)
  // ---------------------------------------------------------------------------

  /** `games.map(game => game.id === id ? { ...game, status: "ended" } : game)` */
  function EndGameIn(games: seq<Game>, id: string): (r: seq<Game>)
    ensures |r| == |games|
    ensures forall i :: 0 <= i < |games| ==>
      r[i].status == (if games[i].id == id then "ended" else games[i].status)
      && r[i].(status := games[i].status) == games[i]
  {
    seq(|games|, i requires 0 <= i < |games| =>
      if games[i].id == id then games[i].(status := "ended") else games[i])
  }

  /** Games table: "جارية" for an active game, "منتهية" for every other status. */
  function GameStatusLabel(g: Game): (text: string)
    ensures text == "جارية" <==> ShowsEndButton(g)
    ensures text != "جارية" ==> text == "منتهية"
  {
    if g.status == "active" then "جارية" else "منتهية"
  }

  /** The force-end button is offered only on active games. */
  predicate ShowsEndButton(g: Game)
    ensures ShowsEndButton(g) ==> g.status != "ended"
    ensures g.status == "active" ==> ShowsEndButton(g)
  {
    g.status == "active"
  }

  /**
   * A forced ending takes the game out of the active list for good: it is labelled as
   * finished, offers no end button, and ending it again changes nothing.
   */
  lemma EndedGameIsFinished(games: seq<Game>, id: string, i: int)
    requires 0 <= i < |games| && games[i].id == id
    ensures !ShowsEndButton(EndGameIn(games, id)[i])
    ensures GameStatusLabel(EndGameIn(games, id)[i]) == "منتهية"
    ensures EndGameIn(EndGameIn(games, id), id) == EndGameIn(games, id)
  {
    var once := EndGameIn(games, id);
    var twice := EndGameIn(once, id);
    assert forall j :: 0 <= j < |once| ==> twice[j] == once[j];
  }

  // ---------------------------------------------------------------------------
  // Invites: deleteInvite (lines 216-231)
  // ---------------------------------------------------------------------------

  /** `invites.filter(invite => invite.id !== id)` */
  function DeleteInviteFrom(invites: seq<Invite>, id: int): (r: seq<Invite>)
    ensures |r| <= |invites|
    ensures forall v :: v in r <==> v in invites && v.id != id
    ensures forall v: Invite :: v.id != id ==> multiset(r)[v] == multiset(invites)[v]
  {
    var keep := (v: Invite) => v.id != id;
    FilterCounts(invites, keep);
    Filter(invites, keep)
  }

  /** Deleting distributes over a split of the list, so the remaining invites keep their order. */
  lemma DeleteInviteKeepsOrder(front: seq<Invite>, back: seq<Invite>, id: int)
    ensures DeleteInviteFrom(front + back, id) == DeleteInviteFrom(front, id) + DeleteInviteFrom(back, id)
  {
    FilterAppend(front, back, (v: Invite) => v.id != id);
  }

  /** Deleting an id that no invite carries leaves the list unchanged. */
  lemma DeleteAbsentInvite(invites: seq<Invite>, id: int)
    requires forall i :: 0 <= i < |invites| ==> invites[i].id != id
    ensures DeleteInviteFrom(invites, id) == invites
  {
    FilterKeepsAll(invites, (v: Invite) => v.id != id);
  }

  // ---------------------------------------------------------------------------
  // Search: filteredUsers (lines 246-249)
  // ---------------------------------------------------------------------------

  /** The lower-cased term occurs in the lower-cased username or e-mail address. */
  predicate MatchesSearch(u: User, term: string) {
    Includes(Lower(u.username), Lower(term)) || Includes(Lower(u.email), Lower(term))
  }

  function FilteredUsers(users: seq<User>, term: string): (r: seq<User>)
    ensures forall u :: u in r <==> u in users && MatchesSearch(u, term)
    ensures |r| <= |users|
  {
    Filter(users, (u: User) => MatchesSearch(u, term))
  }

  /** With an empty search box every user is listed, in order. */
  lemma EmptySearchListsAll(users: seq<User>)
    ensures FilteredUsers(users, "") == users
  {
    forall i | 0 <= i < |users| ensures MatchesSearch(users[i], "") {
      EmptyIncluded(Lower(users[i].username));
    }
    FilterKeepsAll(users, (u: User) => MatchesSearch(u, ""));
  }

  /** The search ignores the case of ASCII letters in the term. */
  lemma SearchIgnoresTermCase(users: seq<User>, a: string, b: string)
    requires Lower(a) == Lower(b)
    ensures FilteredUsers(users, a) == FilteredUsers(users, b)
  {
    FilterSameTest(users, (u: User) => MatchesSearch(u, a), (u: User) => MatchesSearch(u, b));
  }

  // ---------------------------------------------------------------------------
  // Badges: getStatusBadge (lines 233-244) and the status cell (lines 388-392)
  // ---------------------------------------------------------------------------

  datatype BadgeVariant = Filled(color: string) | Secondary | Outline | Destructive

  datatype Badge = Badge(text: string, variant: BadgeVariant)

  /** `getStatusBadge(status)`: the three known statuses get fixed badges; any other is shown verbatim. */
  function StatusBadge(status: string): (b: Badge)
    ensures status == "online" ==> b == Badge("متصل", Filled("bg-green-500 text-white"))
    ensures status == "in-game" ==> b == Badge("في مباراة", Filled("bg-yellow-500 text-white"))
    ensures status == "offline" ==> b == Badge("غير متصل", Secondary)
    ensures status !in {"online", "in-game", "offline"} ==> b == Badge(status, Outline)
  {
    if status == "online" then Badge("متصل", Filled("bg-green-500 text-white"))
    else if status == "in-game" then Badge("في مباراة", Filled("bg-yellow-500 text-white"))
    else if status == "offline" then Badge("غير متصل", Secondary)
    else Badge(status, Outline)
  }

  /** The status cell of the users table: a banned user shows the ban badge whatever the status. */
  function UserBadge(u: User): (b: Badge)
    ensures u.banned ==> b == Badge("محظور", Destructive)
    ensures !u.banned ==> b == StatusBadge(u.status)
  {
    if u.banned then Badge("محظور", Destructive) else StatusBadge(u.status)
  }

  /** The ban badge is never mistaken for a status badge: unknown statuses are drawn outlined. */
  lemma BanBadgeDistinct(status: string)
    ensures StatusBadge(status) != Badge("محظور", Destructive)
  {
  }

  // ---------------------------------------------------------------------------
  // The panel's state
  // ---------------------------------------------------------------------------

  class AdminPanel {
    var searchTerm: string
    var users: seq<User>
    var games: seq<Game>
    var invites: seq<Invite>

    constructor ()
      ensures searchTerm == "" && users == [] && games == [] && invites == []
    {
      searchTerm := "";
      users := [];
      games := [];
      invites := [];
    }

    /** `loadAdminData`: the lists are replaced by the mock data. */
    method LoadAdminData()
      modifies this`users, this`games, this`invites
      ensures users == MockUsers && games == MockGames && invites == MockInvites
    {
      users := MockUsers;
      games := MockGames;
      invites := MockInvites;
    }

    method SetSearchTerm(term: string)
      modifies this`searchTerm
      ensures searchTerm == term
    {
      searchTerm := term;
    }

    method BanUser(id: int)
      modifies this`users
      ensures users == SetBanned(old(users), id, true)
    {
      users := SetBanned(users, id, true);
    }

    method UnbanUser(id: int)
      modifies this`users
      ensures users == SetBanned(old(users), id, false)
    {
      users := SetBanned(users, id, false);
    }

    method EndGame(id: string)
      modifies this`games
      ensures games == EndGameIn(old(games), id)
    {
      games := EndGameIn(games, id);
    }

    method DeleteInvite(id: int)
      modifies this`invites
      ensures invites == DeleteInviteFrom(old(invites), id)
    {
      invites := DeleteInviteFrom(invites, id);
    }

    /** The users table shows the filtered list. */
    function ListedUsers(): (r: seq<User>)
      reads this
      ensures forall u :: u in r <==> u in users && MatchesSearch(u, searchTerm)
    {
      FilteredUsers(users, searchTerm)
    }
  }
}
