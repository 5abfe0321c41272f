/**
 * The friend entity, the seed list the application starts from, and the
 * per-row logic of the friend list: which row is marked selected and which
 * balance line a row shows.
 */
module Friends {
  import opened Optional

  /** Seed friends carry numeric ids; friends added through the form carry the
      text of a random UUID. A number never equals a string under `===`. */
  datatype Id = Numeric(n: int) | Uuid(text: string)

  datatype Friend = Friend(id: Id, name: string, image: string, balance: int)

  const INITIAL_FRIENDS: seq<Friend> := [
    Friend(Numeric(118836), "Clark", "https://i.pravatar.cc/48?u=118836", -7),
    Friend(Numeric(933372), "Sarah", "https://i.pravatar.cc/48?u=933372", 20),
    Friend(Numeric(499476), "Anthony", "https://i.pravatar.cc/48?u=499476", 0)
  ]

  /** The ids of a list of friends, in list order. */
  function Ids(fs: seq<Friend>): (ids: seq<Id>)
    ensures |ids| == |fs|
    ensures forall i :: 0 <= i < |fs| ==> ids[i] == fs[i].id
  {
    seq(|fs|, i requires 0 <= i < |fs| => fs[i].id)
  }

  /** No two entries of the list share an id (assumed of the id generator, not enforced). */
  predicate DistinctIds(fs: seq<Friend>) {
    forall i, j :: 0 <= i < j < |fs| ==> fs[i].id != fs[j].id
  }

  lemma InitialIdsDistinct()
    ensures DistinctIds(INITIAL_FRIENDS)
    ensures |INITIAL_FRIENDS| == 3
  {
  }

  /** Appending a friend whose id is not yet in the list keeps the ids distinct. */
  lemma AppendFreshKeepsDistinct(fs: seq<Friend>, f: Friend)
    requires DistinctIds(fs)
    requires f.id !in Ids(fs)
    ensures DistinctIds(fs + [f])
  {
  }

  /** A row is marked selected when the selected friend exists and has the row's id. */
  predicate IsSelected(selected: Option<Friend>, f: Friend) {
    selected.Some? && selected.value.id == f.id
  }

  /** How many rows of the list are marked selected. */
  function SelectedCount(fs: seq<Friend>, selected: Option<Friend>): (n: nat)
    ensures n <= |fs|
  {
    if fs == [] then 0
    else (if IsSelected(selected, fs[0]) then 1 else 0) + SelectedCount(fs[1..], selected)
  }

  lemma {:induction false} NoRowSelectedWhenAbsent(fs: seq<Friend>, selected: Option<Friend>)
    requires selected.Some? ==> selected.value.id !in Ids(fs)
    ensures SelectedCount(fs, selected) == 0
  {
    if fs != [] {
      assert Ids(fs)[0] == fs[0].id;
      assert Ids(fs[1..]) == Ids(fs)[1..];
      NoRowSelectedWhenAbsent(fs[1..], selected);
    }
  }

  /** In a list with distinct ids at most one row is marked selected, and one is
      exactly when the selected friend's id occurs in the list. */
  lemma {:induction false} AtMostOneSelected(fs: seq<Friend>, selected: Option<Friend>)
    requires DistinctIds(fs)
    ensures SelectedCount(fs, selected) <= 1
    ensures SelectedCount(fs, selected) == 1 <==> selected.Some? && selected.value.id in Ids(fs)
  {
    if fs != [] {
      var rest := fs[1..];
      assert DistinctIds(rest) by {
        forall i, j | 0 <= i < j < |rest| ensures rest[i].id != rest[j].id {
          assert rest[i] == fs[i + 1] && rest[j] == fs[j + 1];
        }
      }
      assert Ids(rest) == Ids(fs)[1..];
      assert Ids(fs) == [fs[0].id] + Ids(rest);
      if IsSelected(selected, fs[0]) {
        forall k | 0 <= k < |rest| ensures Ids(rest)[k] != fs[0].id {
          assert fs[k + 1] == rest[k];
        }
        NoRowSelectedWhenAbsent(rest, selected);
      } else {
        AtMostOneSelected(rest, selected);
      }
    }
  }

  /** The balance lines a row can show (the euro sign and markup are left out). */
  datatype Wording =
    | YouOwe(name: string, amount: nat)
    | OwesYou(name: string, amount: nat)
    | Even(name: string)

  function Abs(x: int): nat {
    if x < 0 then -x else x
  }

  /** The balance lines of a friend's row: each of the three is rendered under its own condition. */
  function Wordings(f: Friend): seq<Wording> {
    (if f.balance < 0 then [YouOwe(f.name, Abs(f.balance))] else [])
    + (if f.balance > 0 then [OwesYou(f.name, Abs(f.balance))] else [])
    + (if f.balance == 0 then [Even(f.name)] else [])
  }

  /** The signed balance a wording stands for. */
  function SignedAmount(w: Wording): int {
    match w
    case YouOwe(_, a) => -(a as int)
    case OwesYou(_, a) => a
    case Even(_) => 0
  }

  /** Every row shows exactly one balance line; the line is chosen by the sign of
      the balance, names the friend, shows the magnitude, and loses no information. */
  lemma ExactlyOneWording(f: Friend)
    ensures |Wordings(f)| == 1
    ensures Wordings(f)[0].YouOwe? <==> f.balance < 0
    ensures Wordings(f)[0].OwesYou? <==> f.balance > 0
    ensures Wordings(f)[0].Even? <==> f.balance == 0
    ensures Wordings(f)[0].name == f.name
    ensures !Wordings(f)[0].Even? ==> Wordings(f)[0].amount == Abs(f.balance) > 0
    ensures SignedAmount(Wordings(f)[0]) == f.balance
  {
  }
}
