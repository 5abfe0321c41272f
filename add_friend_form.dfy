/**
 * The `FormAddFriend` component: two text drafts and the submit handler
 * that validates them, builds the new friend and hands it to the `App`.
 * The id comes from a random UUID generator, so it is a parameter here.
 */
module AddFriendForm {
  import opened Optional
  import opened Friends
  import opened AppState

  /** The placeholder avatar the image draft starts from and is reset to. */
  const DEFAULT_IMAGE: string := "https://i.pravatar.cc/48"

  datatype Draft = Draft(name: string, image: string)

  const INITIAL_DRAFT: Draft := Draft("", DEFAULT_IMAGE)

  /** The friend built from the drafts: zero balance, the id appended to the image URL. */
  function NewFriend(d: Draft, id: string): Friend {
    Friend(Uuid(id), d.name, d.image + "?=" + id, 0)
  }

  /** The drafts after a submit, and the friend handed to the `App`, if any. */
  datatype Outcome = Outcome(draft: Draft, added: Option<Friend>)

  /** `handleSubmit`: a silent no-op when either draft is empty; otherwise the
      new friend is added and both drafts go back to their initial values. */
  function Submit(d: Draft, id: string): (r: Outcome)
    ensures r.added.None? <==> d.name == "" || d.image == ""
    ensures r.added.None? ==> r.draft == d
    ensures r.added.Some? ==> r.draft == INITIAL_DRAFT && r.added.value == NewFriend(d, id)
  {
    if d.name == "" || d.image == "" then Outcome(d, None)
    else Outcome(INITIAL_DRAFT, Some(NewFriend(d, id)))
  }

  /** The new friend keeps the draft name, has balance 0 and the given id, and its
      image is the draft image followed by "?=" and the id, so both can be read back. */
  lemma NewFriendShape(d: Draft, id: string)
    ensures NewFriend(d, id).name == d.name && NewFriend(d, id).balance == 0
    ensures NewFriend(d, id).id == Uuid(id)
    ensures |NewFriend(d, id).image| == |d.image| + 2 + |id|
    ensures NewFriend(d, id).image[..|d.image|] == d.image
    ensures NewFriend(d, id).image[|d.image|..|d.image| + 2] == "?="
    ensures NewFriend(d, id).image[|d.image| + 2..] == id
  {
  }

  /** Two friends added from the same image draft with different ids get different images. */
  lemma SameBaseDistinctImages(d1: Draft, d2: Draft, id1: string, id2: string)
    requires d1.image == d2.image
    requires id1 != id2
    ensures NewFriend(d1, id1).image != NewFriend(d2, id2).image
  {
    NewFriendShape(d1, id1);
    NewFriendShape(d2, id2);
  }

  /** Ids of equal length (every UUID has 36 characters) that differ give different
      images, whatever the image drafts. */
  lemma EqualLengthIdsDistinctImages(d1: Draft, d2: Draft, id1: string, id2: string)
    requires |id1| == |id2|
    requires id1 != id2
    ensures NewFriend(d1, id1).image != NewFriend(d2, id2).image
  {
    NewFriendShape(d1, id1);
    NewFriendShape(d2, id2);
    if |d1.image| == |d2.image| {
      // same length of base: the id suffixes sit at the same position and differ
      assert NewFriend(d1, id1).image[|d1.image| + 2..] != NewFriend(d2, id2).image[|d1.image| + 2..];
    } else {
      assert |NewFriend(d1, id1).image| != |NewFriend(d2, id2).image|;
    }
  }

  /** The form component, its two drafts held in fields. */
  class Form {
    var name: string
    var image: string

    function Current(): Draft
      reads this
    {
      Draft(name, image)
    }

    constructor ()
      ensures Current() == INITIAL_DRAFT
    {
      name := "";
      image := DEFAULT_IMAGE;
    }

    /** The name field's `onChange`. */
    method HandleNameChange(value: string)
      modifies this
      ensures name == value && image == old(image)
    {
      name := value;
    }

    /** The image field's `onChange`. */
    method HandleImageChange(value: string)
      modifies this
      ensures image == value && name == old(name)
    {
      image := value;
    }

    /** Submitting the form; `onAddFriend` is the `App`'s `handleAddFriend`. */
    method HandleSubmit(id: string, app: App)
      modifies this, app
      ensures Current() == Submit(old(Current()), id).draft
      ensures Submit(old(Current()), id).added.None? ==> app.Current() == old(app.Current())
      ensures Submit(old(Current()), id).added.Some? ==>
        app.Current() == AddFriend(old(app.Current()), NewFriend(old(Current()), id))
    {
      if name == "" || image == "" {
        return;
      }
      var newFriend := NewFriend(Current(), id);
      app.HandleAddFriend(newFriend);
      name := "";
      image := DEFAULT_IMAGE;
    }
  }
}
