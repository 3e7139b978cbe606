/**
 * The player dashboard (src/pages/Dashboard.tsx): the friends panel with status dots and
 * labels, and the received game invites.
 */
module Dashboard {
  import opened Common

  datatype Friend = Friend(id: string, username: string, status: string, rating: int)

  datatype GameInvite = GameInvite(id: string, fromUser: string, gameType: string, timeControl: int)

  const MockFriends: seq<Friend> := [
    Friend("1", "أحمد الشطرنجي", "online", 1450),
    Friend("2", "فاطمة الذكية", "in-game", 1320),
    Friend("3", "محمد الاستراتيجي", "offline", 1180)
  ]

  const MockInvites: seq<GameInvite> := [
    GameInvite("1", "سارة المفكرة", "standard", 10)
  ]

  /** `getStatusColor(status)`: offline and unknown statuses share the gray dot. */
  function StatusColor(status: string): (cls: string)
    ensures status == "online" ==> cls == "bg-green-500"
    ensures status == "in-game" ==> cls == "bg-primary"
    ensures status != "online" && status != "in-game" ==> cls == "bg-gray-400"
  {
    if status == "online" then "bg-green-500"
    else if status == "in-game" then "bg-primary"
    else "bg-gray-400"
  }

  /** `getStatusText(status)`: the three statuses get labels, anything else "غير معروف". */
  function StatusText(status: string): (text: string)
    ensures status == "online" ==> text == "متاح"
    ensures status == "in-game" ==> text == "في مباراة"
    ensures status == "offline" ==> text == "غير متصل"
    ensures status !in {"online", "in-game", "offline"} ==> text == "غير معروف"
  {
    if status == "online" then "متاح"
    else if status == "in-game" then "في مباراة"
    else if status == "offline" then "غير متصل"
    else "غير معروف"
  }

  /** Each label belongs to one status: the label tells the status apart, unknown ones aside. */
  lemma StatusTextInjective(a: string, b: string)
    requires a in {"online", "in-game", "offline"} && StatusText(a) == StatusText(b)
    ensures a == b
  {
    assert StatusText("online")[0] != StatusText("in-game")[0];
    assert |StatusText("online")| != |StatusText("offline")|;
    assert StatusText("in-game")[0] != StatusText("offline")[0];
    assert |StatusText("in-game")| != |StatusText("غير معروف")| || StatusText("in-game")[0] != StatusText("غير معروف")[0];
  }

  /** The challenge button is drawn only for online friends. */
  predicate ShowsChallenge(f: Friend)
    ensures ShowsChallenge(f) <==> StatusColor(f.status) == "bg-green-500"
  {
    f.status == "online"
  }

  /** A challenge is offered exactly to the friends labelled available, who also get the green dot. */
  lemma ChallengeIffAvailable(f: Friend)
    ensures ShowsChallenge(f) <==> StatusText(f.status) == "متاح"
    ensures ShowsChallenge(f) <==> StatusColor(f.status) == "bg-green-500"
  {
  }

  /** `invites.filter(invite => invite.id !== id)` */
  function WithoutInvite(invites: seq<GameInvite>, id: string): (r: seq<GameInvite>)
    ensures forall v :: v in r <==> v in invites && v.id != id
    ensures forall v: GameInvite :: v.id != id ==> multiset(r)[v] == multiset(invites)[v]
  {
    var keep := (v: GameInvite) => v.id != id;
    FilterCounts(invites, keep);
    Filter(invites, keep)
  }

  /** Declining keeps the other invites in their order. */
  lemma WithoutInviteKeepsOrder(front: seq<GameInvite>, back: seq<GameInvite>, id: string)
    ensures WithoutInvite(front + back, id) == WithoutInvite(front, id) + WithoutInvite(back, id)
  {
    FilterAppend(front, back, (v: GameInvite) => v.id != id);
  }

  class DashboardPage {
    var friends: seq<Friend>
    var invites: seq<GameInvite>

    /** The mount effect fills both lists with the mock data. */
    constructor ()
      ensures friends == MockFriends && invites == MockInvites
    {
      friends := MockFriends;
      invites := MockInvites;
    }

    /** `handleAcceptInvite`: only a notice; the invite stays listed. */
    method HandleAcceptInvite(id: string)
      ensures invites == old(invites) && friends == old(friends)
    {
    }

    /** `handleDeclineInvite(id)`: the invites with that id disappear. */
    method HandleDeclineInvite(id: string)
      modifies this`invites
      ensures invites == WithoutInvite(old(invites), id) && friends == old(friends)
    {
      invites := WithoutInvite(invites, id);
    }
  }
}
