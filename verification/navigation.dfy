/**
 * The navigation bar: each button names the section it shows in its `data-section`
 * attribute; a click makes that button and that section the only active ones.
 */
module Navigation {
  import opened Wrappers

  /** `document.getElementById(id)` among the sections: the first section with that id. */
  function FirstIndex(ids: seq<string>, id: string): (r: Option<nat>)
    ensures r.None? <==> id !in ids
    ensures r.Some? ==> r.value < |ids| && ids[r.value] == id && forall j :: 0 <= j < r.value ==> ids[j] != id
  {
    if ids == [] then None
    else if ids[0] == id then Some(0)
    else match FirstIndex(ids[1..], id)
      case None => None
      case Some(k) => Some(k + 1)
  }

  /** How many flags are set. */
  function ActiveCount(flags: seq<bool>): nat
  {
    if flags == [] then 0 else (if flags[0] then 1 else 0) + ActiveCount(flags[1..])
  }

  /** Flags that are set at index `k` and nowhere else count exactly one. */
  lemma {:induction false} SingleActive(flags: seq<bool>, k: nat)
    requires k < |flags| && forall i :: 0 <= i < |flags| ==> flags[i] == (i == k)
    ensures ActiveCount(flags) == 1
  {
    if k == 0 {
      NoneActive(flags[1..]);
    } else {
      SingleActive(flags[1..], k - 1);
    }
  }

  /** Flags that are all clear count none. */
  lemma {:induction false} NoneActive(flags: seq<bool>)
    requires forall i :: 0 <= i < |flags| ==> !flags[i]
    ensures ActiveCount(flags) == 0
  {
    if flags != [] {
      NoneActive(flags[1..]);
    }
  }

  /** No two sections share an id. */
  predicate DistinctIds(ids: seq<string>)
  {
    forall i, j :: 0 <= i < j < |ids| ==> ids[i] != ids[j]
  }

  class NavBar {
    /** The `data-section` of each button, in document order. */
    const targets: seq<string>
    /** The id of each section, in document order. */
    const sectionIds: seq<string>
    /** Whether each button, and each section, carries the `active` class. */
    const buttonActive: array<bool>
    const sectionActive: array<bool>

    predicate Valid()
      reads this
    {
      && buttonActive.Length == |targets|
      && sectionActive.Length == |sectionIds|
      && buttonActive != sectionActive
    }

    /** A page whose buttons and sections start with the given `active` flags. */
    constructor (targets: seq<string>, sectionIds: seq<string>, buttons: seq<bool>, sections: seq<bool>)
      requires |buttons| == |targets| && |sections| == |sectionIds|
      ensures Valid()
      ensures this.targets == targets && this.sectionIds == sectionIds
      ensures buttonActive[..] == buttons && sectionActive[..] == sections
      ensures fresh(buttonActive) && fresh(sectionActive)
    {
      this.targets := targets;
      this.sectionIds := sectionIds;
      buttonActive := new bool[|buttons|](i requires 0 <= i < |buttons| => buttons[i]);
      sectionActive := new bool[|sections|](i requires 0 <= i < |sections| => sections[i]);
    }

    /** The click handler of button `b`. Every `active` class is removed, then button `b`
        gets it, then the first section whose id is `b`'s target. `shown` is false when no
        section has that id: the lookup yields nothing and the handler fails after the
        button was marked, leaving no section active. */
    method Click(b: nat) returns (shown: bool)
      requires Valid() && b < |targets|
      modifies buttonActive, sectionActive
      ensures Valid()
      ensures forall i :: 0 <= i < buttonActive.Length ==> buttonActive[i] == (i == b)
      ensures ActiveCount(buttonActive[..]) == 1
      ensures shown <==> targets[b] in sectionIds
      ensures shown ==> var k := FirstIndex(sectionIds, targets[b]).value;
        (forall j :: 0 <= j < sectionActive.Length ==> sectionActive[j] == (j == k))
        && ActiveCount(sectionActive[..]) == 1
      ensures forall k :: 0 <= k < |sectionIds| && sectionIds[k] == targets[b] && DistinctIds(sectionIds) ==>
        shown && forall j :: 0 <= j < sectionActive.Length ==> sectionActive[j] == (j == k)
      ensures !shown ==> forall j :: 0 <= j < sectionActive.Length ==> !sectionActive[j]
    {
      for i := 0 to buttonActive.Length
        invariant forall j :: 0 <= j < i ==> !buttonActive[j]
      {
        buttonActive[i] := false;
      }
      for i := 0 to sectionActive.Length
        invariant forall j :: 0 <= j < buttonActive.Length ==> !buttonActive[j]
        invariant forall j :: 0 <= j < i ==> !sectionActive[j]
      {
        sectionActive[i] := false;
      }
      buttonActive[b] := true;
      SingleActive(buttonActive[..], b);
      var target := FirstIndex(sectionIds, targets[b]);
      if target.Some? {
        sectionActive[target.value] := true;
        SingleActive(sectionActive[..], target.value);
        shown := true;
      } else {
        shown := false;
      }
    }
  }
}
