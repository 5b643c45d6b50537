/**
 * The add-names modal: one text slot per group member, filled in one at a
 * time, reloaded from storage, and submitted when every slot is filled.
 *
 * The names are written with a POST, which the realtime database stores
 * under a fresh push key; reading the group back therefore yields an
 * object of keyed entries under `names`, never the list that was posted.
 */
module AddNames {
  import opened Common
  import AddGroup

  /** `2^32`: `Array(n)` accepts only whole numbers below this. */
  const ArrayLimit: real := 4294967296.0

  /**
   * `Array(members).fill("")` for a numeric `members`: `None` stands for
   * the `RangeError` thrown for a count that is fractional, negative or
   * too large.
   */
  function InitialNames(members: real): Option<seq<string>>
  {
    if 0.0 <= members < ArrayLimit && members.Floor as real == members
    then Some(EmptyStrings(members.Floor))
    else None
  }

  /**
   * Mounting succeeds exactly for a whole count below `2^32`, and then
   * gives one empty slot per member.
   */
  lemma InitialNamesSpec(members: real)
    ensures InitialNames(members).Some? <==>
      0.0 <= members < ArrayLimit && exists n: nat {:trigger EmptyStrings(n)} :: n as real == members
    ensures forall n: nat :: n as real == members && members < ArrayLimit ==> InitialNames(members) == Some(EmptyStrings(n))
  {
    if 0.0 <= members && members.Floor as real == members {
      var n: nat := members.Floor;
      assert n as real == members && EmptyStrings(n) == EmptyStrings(n);
    }
  }

  /**
   * The add-group form accepts a fractional member count such as 2.5, and
   * opening the add-names modal for that group throws.
   */
  lemma FractionalCountThrows()
    ensures !AddGroup.Rejected("Trip", AddGroup.Num(2.5))
    ensures InitialNames(2.5).None?
  {
    assert "Trip"[0] == 'T';
    AddGroup.AcceptedIff("Trip", AddGroup.Num(2.5));
    assert (2.5).Floor == 2;
  }

  /** `memberNames.every(name => name !== "")`. */
  predicate AllNamed(names: seq<string>)
  {
    forall i :: 0 <= i < |names| ==> names[i] != ""
  }

  /**
   * A fresh list is complete only for a group without members; once every
   * slot has been given a non-empty name it is complete.
   */
  lemma EmptyNamesComplete(members: nat)
    ensures AllNamed(EmptyStrings(members)) <==> members == 0
  {
    if members > 0 {
      assert EmptyStrings(members)[0] == "";
    }
  }

  /** Filling the one remaining empty slot completes the list. */
  lemma FillLastCompletes(names: seq<string>, index: nat, value: string)
    requires index < |names| && value != ""
    requires forall i :: 0 <= i < |names| && i != index ==> names[i] != ""
    ensures AllNamed(names[index := value])
  {
  }

  /** A push-keyed entry of the stored `names` object. */
  datatype Entry = Entry(key: string, value: Names)

  /**
   * What `memberNames` holds: a list of slots, or the keyed object read
   * back from storage (which has no `map`, `every` or spread).
   */
  datatype Names = Slots(values: seq<string>) | Keyed(entries: seq<Entry>)

  /** The stored `names` object after one more POST under `key`. */
  function PostNames(stored: seq<Entry>, key: string, posted: Names): (r: seq<Entry>)
    ensures r != [] && r[|r| - 1] == Entry(key, posted)
  {
    stored + [Entry(key, posted)]
  }

  /**
   * `if (data.names) setMemberNames(data.names) else
   * setMemberNames(Array(members).fill(""))`: stored entries come back as
   * the keyed object, and only a group without names gives empty slots.
   */
  function ReadBack(stored: seq<Entry>, members: nat): (r: Names)
    ensures r.Slots? <==> stored == []
    ensures r.Keyed? ==> r.entries == stored
    ensures r.Slots? ==> r.values == EmptyStrings(members)
  {
    if stored != [] then Keyed(stored) else Slots(EmptyStrings(members))
  }

  /** What reading the group back yields: nothing usable, or its stored `names` entries. */
  datatype NamesFetch = Unavailable | Fetched(stored: seq<Entry>)

  /** How `handleEnter` ends after posting. */
  datatype EnterResult = Navigated | Alerted | Threw

  class NamesModal {
    /** The member count handed over by the groups page. */
    const members: nat
    var memberNames: Names
    /** Whether the modal is still open (`setAddNames(false)` closes it). */
    var open: bool

    constructor(members: nat)
      ensures this.members == members && open
      ensures memberNames == Slots(EmptyStrings(members))
      ensures (members as real) < ArrayLimit ==> InitialNames(members as real) == Some(memberNames.values)
    {
      this.members := members;
      memberNames := Slots(EmptyStrings(members));
      open := true;
      assert (members as real).Floor == members;
    }

    /**
     * `handleInputChange`: slot `index` takes the typed value and nothing
     * else moves; spreading a keyed object throws, so that changes nothing.
     */
    method HandleInputChange(index: nat, value: string)
      requires memberNames.Slots? ==> index < |memberNames.values|
      modifies this
      ensures old(memberNames).Slots? ==> memberNames == Slots(old(memberNames).values[index := value])
      ensures old(memberNames).Keyed? ==> memberNames == old(memberNames)
      ensures open == old(open)
    {
      if memberNames.Slots? {
        memberNames := Slots(memberNames.values[index := value]);
      }
    }

    /**
     * The names effect: stored entries replace the list with the keyed
     * object, absent names reset it to `members` empty slots, and an
     * unusable read keeps it.
     */
    method Reload(outcome: NamesFetch)
      modifies this
      ensures outcome.Fetched? ==> memberNames == ReadBack(outcome.stored, members)
      ensures outcome.Unavailable? ==> memberNames == old(memberNames)
      ensures open == old(open)
    {
      match outcome {
        case Unavailable =>
        case Fetched(stored) =>
          memberNames := ReadBack(stored, members);
      }
    }

    /**
     * `handleEnter`: the current names are posted first, whatever they
     * hold; the modal then navigates to the group, closes and reports
     * success only when every slot is non-empty, and alerts otherwise; on
     * a keyed object `every` throws, so it neither navigates nor alerts.
     */
    method HandleEnter() returns (posted: Names, result: EnterResult)
      modifies this
      ensures posted == old(memberNames) && memberNames == old(memberNames)
      ensures memberNames.Slots? ==> (result == Navigated <==> AllNamed(memberNames.values))
      ensures memberNames.Slots? ==> result != Threw
      ensures memberNames.Keyed? ==> result == Threw
      ensures result == Navigated ==> !open
      ensures result != Navigated ==> open == old(open)
    {
      posted := memberNames;
      if memberNames.Keyed? {
        return posted, Threw;
      }
      if AllNamed(memberNames.values) {
        result := Navigated;
        open := false;
      } else {
        result := Alerted;
      }
    }
  }

  /**
   * Saving names and reopening the modal never gives the names back as a
   * list: the read yields the keyed object whose newest entry holds the
   * posted value, and Enter on it throws instead of navigating.
   */
  lemma ReadBackAfterPost(stored: seq<Entry>, key: string, posted: Names, members: nat)
    ensures ReadBack(PostNames(stored, key, posted), members).Keyed?
    ensures var e := ReadBack(PostNames(stored, key, posted), members).entries; e[|e| - 1] == Entry(key, posted)
  {
  }
}
