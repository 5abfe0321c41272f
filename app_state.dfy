/**
 * The `App` component's state: the friend list, the visibility of the
 * add-friend form and the selected friend, with its three handlers.
 * The pure step functions specify the handlers; runs of user events over
 * them state what holds after any sequence of clicks and submissions.
 */
module AppState {
  import opened Optional
  import opened Friends

  datatype State = State(friends: seq<Friend>, showAddFriend: bool, selectedFriend: Option<Friend>)

  /** What the three `useState` hooks start from. */
  function InitialState(): State {
    State(INITIAL_FRIENDS, false, None)
  }

  /** `handleShowAddFriend`: flip the form's visibility, touch nothing else. */
  function ToggleAddFriend(s: State): (t: State)
    ensures t.showAddFriend == !s.showAddFriend
    ensures t.friends == s.friends && t.selectedFriend == s.selectedFriend
  {
    s.(showAddFriend := !s.showAddFriend)
  }

  /** `handleAddFriend`: the new friend goes last, the earlier entries keep their
      order, the form closes and the selection stays. */
  function AddFriend(s: State, f: Friend): (t: State)
    ensures |t.friends| == |s.friends| + 1
    ensures t.friends[..|s.friends|] == s.friends && t.friends[|s.friends|] == f
    ensures !t.showAddFriend && t.selectedFriend == s.selectedFriend
  {
    State(s.friends + [f], false, s.selectedFriend)
  }

  /** `handleSelectFriend`: clicking the selected row clears the selection,
      clicking any other row selects that friend; the form always closes. */
  function SelectFriend(s: State, f: Friend): (t: State)
    ensures t.friends == s.friends && !t.showAddFriend
    ensures IsSelected(t.selectedFriend, f) <==> !IsSelected(s.selectedFriend, f)
    ensures t.selectedFriend == None || t.selectedFriend == Some(f)
  {
    State(s.friends, false, if IsSelected(s.selectedFriend, f) then None else Some(f))
  }

  lemma ToggleTwiceRestores(s: State)
    ensures ToggleAddFriend(ToggleAddFriend(s)) == s
  {
  }

  /** The user actions that reach the three handlers. */
  datatype Event =
    | AddFriendButtonClicked
    | FriendSubmitted(friend: Friend)
    | FriendClicked(friend: Friend)

  function Apply(s: State, e: Event): State {
    match e
    case AddFriendButtonClicked => ToggleAddFriend(s)
    case FriendSubmitted(f) => AddFriend(s, f)
    case FriendClicked(f) => SelectFriend(s, f)
  }

  function Run(s: State, es: seq<Event>): State
    decreases |es|
  {
    if es == [] then s else Run(Apply(s, es[0]), es[1..])
  }

  /** How many friends a run of events submits. */
  function Submissions(es: seq<Event>): nat
    decreases |es|
  {
    if es == [] then 0 else (if es[0].FriendSubmitted? then 1 else 0) + Submissions(es[1..])
  }

  /** Friends are never removed, reordered or changed: any run only appends,
      one entry per submission. */
  lemma {:induction false} RunOnlyAppends(s: State, es: seq<Event>)
    ensures |Run(s, es).friends| == |s.friends| + Submissions(es)
    ensures Run(s, es).friends[..|s.friends|] == s.friends
    decreases |es|
  {
    if es != [] {
      var s' := Apply(s, es[0]);
      RunOnlyAppends(s', es[1..]);
      assert s'.friends[..|s.friends|] == s.friends;
      assert Run(s, es).friends[..|s'.friends|][..|s.friends|] == Run(s, es).friends[..|s.friends|];
    }
  }

  /** The three seed friends stay first, with their seed balances, whatever the user does. */
  lemma SeedFriendsKept(es: seq<Event>)
    ensures |Run(InitialState(), es).friends| == 3 + Submissions(es)
    ensures Run(InitialState(), es).friends[..3] == INITIAL_FRIENDS
  {
    RunOnlyAppends(InitialState(), es);
  }

  /** The selected friend, if any, is an entry of the list. */
  ghost predicate SelectionListed(s: State) {
    s.selectedFriend.Some? ==> s.selectedFriend.value in s.friends
  }

  /** Every click of the run is on a row of the list as it is at that moment
      (the only way the user interface calls `handleSelectFriend`). */
  ghost predicate ClicksOnListedRows(s: State, es: seq<Event>)
    decreases |es|
  {
    es == [] ||
    ((es[0].FriendClicked? ==> es[0].friend in s.friends) && ClicksOnListedRows(Apply(s, es[0]), es[1..]))
  }

  lemma {:induction false} RunKeepsSelectionListed(s: State, es: seq<Event>)
    requires SelectionListed(s)
    requires ClicksOnListedRows(s, es)
    ensures SelectionListed(Run(s, es))
    decreases |es|
  {
    if es != [] {
      var s' := Apply(s, es[0]);
      if es[0].FriendSubmitted? {
        assert s'.friends[..|s.friends|] == s.friends;
      }
      RunKeepsSelectionListed(s', es[1..]);
    }
  }

  /** Every friend the run submits has an id not yet in the list (what the UUID
      generator is trusted to give; not proved). */
  ghost predicate SubmissionsFresh(s: State, es: seq<Event>)
    decreases |es|
  {
    es == [] ||
    ((es[0].FriendSubmitted? ==> es[0].friend.id !in Ids(s.friends)) && SubmissionsFresh(Apply(s, es[0]), es[1..]))
  }

  /** With fresh ids the list keeps distinct ids, so after any run at most one
      row is marked selected, and one is exactly when the selection has a listed id. */
  lemma {:induction false} RunKeepsOneSelectedRow(s: State, es: seq<Event>)
    requires DistinctIds(s.friends)
    requires SubmissionsFresh(s, es)
    ensures DistinctIds(Run(s, es).friends)
    ensures var t := Run(s, es);
      SelectedCount(t.friends, t.selectedFriend) <= 1 &&
      (SelectedCount(t.friends, t.selectedFriend) == 1 <==>
        t.selectedFriend.Some? && t.selectedFriend.value.id in Ids(t.friends))
    decreases |es|
  {
    if es == [] {
      AtMostOneSelected(s.friends, s.selectedFriend);
    } else {
      if es[0].FriendSubmitted? {
        AppendFreshKeepsDistinct(s.friends, es[0].friend);
      }
      RunKeepsOneSelectedRow(Apply(s, es[0]), es[1..]);
    }
  }

  /** Clicking the same row twice, starting from a different selection (or none), ends with none. */
  lemma SelectTwiceClears(s: State, f: Friend)
    requires !IsSelected(s.selectedFriend, f)
    ensures Run(s, [FriendClicked(f), FriendClicked(f)]).selectedFriend == None
    ensures Run(s, [FriendClicked(f)]).selectedFriend == Some(f)
  {
    var once := SelectFriend(s, f);
    assert [FriendClicked(f), FriendClicked(f)][1..] == [FriendClicked(f)];
    assert Run(s, [FriendClicked(f), FriendClicked(f)]) == Run(once, [FriendClicked(f)]);
    assert Run(once, [FriendClicked(f)]) == SelectFriend(once, f);
  }

  /** Selecting closes the add-friend form, but opening the form keeps the
      selection: both forms can be visible at once. */
  lemma BothFormsCanBeOpen()
    ensures var t := Run(InitialState(), [FriendClicked(INITIAL_FRIENDS[0]), AddFriendButtonClicked]);
      t.showAddFriend && t.selectedFriend == Some(INITIAL_FRIENDS[0])
  {
    var clark := INITIAL_FRIENDS[0];
    var s1 := SelectFriend(InitialState(), clark);
    assert s1.selectedFriend == Some(clark);
    assert [FriendClicked(clark), AddFriendButtonClicked][1..] == [AddFriendButtonClicked];
    assert Run(s1, [AddFriendButtonClicked]) == ToggleAddFriend(s1);
  }

  /** The `App` component, its hook state held in fields. */
  class App {
    var friends: seq<Friend>
    var showAddFriend: bool
    var selectedFriend: Option<Friend>

    function Current(): State
      reads this
    {
      State(friends, showAddFriend, selectedFriend)
    }

    constructor ()
      ensures Current() == InitialState()
    {
      friends := INITIAL_FRIENDS;
      showAddFriend := false;
      selectedFriend := None;
    }

    method HandleShowAddFriend()
      modifies this
      ensures Current() == ToggleAddFriend(old(Current()))
    {
      showAddFriend := !showAddFriend;
    }

    method HandleAddFriend(newFriend: Friend)
      modifies this
      ensures Current() == AddFriend(old(Current()), newFriend)
    {
      friends := friends + [newFriend];
      showAddFriend := false;
    }

    method HandleSelectFriend(friend: Friend)
      modifies this
      ensures Current() == SelectFriend(old(Current()), friend)
    {
      if selectedFriend.Some? && selectedFriend.value.id == friend.id {
        selectedFriend := None;
      } else {
        selectedFriend := Some(friend);
      }
      showAddFriend := false;
    }
  }
}
