/**
 * The response guide's accordion: a record from section name to "expanded",
 * where a missing section reads as collapsed and a click flips one section.
 */
module ResponseCoordination {

  /** `expandedSections[section]` read as a condition: a missing key is undefined, hence collapsed. */
  predicate IsOpen(expanded: map<string, bool>, section: string)
  {
    section in expanded && expanded[section]
  }

  /** The `toggleSection` updater: `{...prev, [section]: !prev[section]}`. */
  function Toggled(expanded: map<string, bool>, section: string): (r: map<string, bool>)
    ensures r.Keys == expanded.Keys + {section}
    ensures IsOpen(r, section) <==> !IsOpen(expanded, section)
    ensures forall other :: other != section && other in expanded ==> r[other] == expanded[other]
  {
    expanded[section := !IsOpen(expanded, section)]
  }

  /** A section never toggled before opens on its first click. */
  lemma FirstToggleOpens(expanded: map<string, bool>, section: string)
    requires section !in expanded
    ensures IsOpen(Toggled(expanded, section), section)
  {
  }

  /** A click on one section leaves whether any other section is open unchanged. */
  lemma ToggleIsLocal(expanded: map<string, bool>, section: string, other: string)
    requires other != section
    ensures IsOpen(Toggled(expanded, section), other) <==> IsOpen(expanded, other)
  {
  }

  /** The page after a sequence of clicks. */
  function AfterClicks(expanded: map<string, bool>, clicks: seq<string>): map<string, bool>
    decreases |clicks|
  {
    if clicks == [] then expanded else AfterClicks(Toggled(expanded, clicks[0]), clicks[1..])
  }

  /** The record holds exactly the sections it held before and the ones clicked. */
  lemma {:induction false} AfterClicksKeys(expanded: map<string, bool>, clicks: seq<string>)
    ensures AfterClicks(expanded, clicks).Keys == expanded.Keys + set i | 0 <= i < |clicks| :: clicks[i]
    decreases |clicks|
  {
    if clicks != [] {
      AfterClicksKeys(Toggled(expanded, clicks[0]), clicks[1..]);
      var later := set i | 0 <= i < |clicks| - 1 :: clicks[1..][i];
      assert (set i | 0 <= i < |clicks| :: clicks[i]) == {clicks[0]} + later by {
        forall x | x in later ensures x in set i | 0 <= i < |clicks| :: clicks[i] {
          var i :| 0 <= i < |clicks| - 1 && clicks[1..][i] == x;
          assert clicks[i + 1] == x;
        }
        forall x | x in set i | 0 <= i < |clicks| :: clicks[i] ensures x in {clicks[0]} + later {
          var i :| 0 <= i < |clicks| && clicks[i] == x;
          if i > 0 {
            assert clicks[1..][i - 1] == x;
          }
        }
      }
    }
  }

  /** How many of the clicks hit the section. */
  function Count(clicks: seq<string>, section: string): (n: nat)
    ensures n <= |clicks|
    ensures n == 0 <==> forall i :: 0 <= i < |clicks| ==> clicks[i] != section
  {
    if clicks == [] then 0 else (if clicks[0] == section then 1 else 0) + Count(clicks[1..], section)
  }

  /** A section is open after a sequence of clicks iff it was open and was clicked an even number of times, or closed and clicked an odd number. */
  lemma {:induction false} OpenAfterClicks(expanded: map<string, bool>, clicks: seq<string>, section: string)
    ensures IsOpen(AfterClicks(expanded, clicks), section)
      <==> (IsOpen(expanded, section) != (Count(clicks, section) % 2 == 1))
    decreases |clicks|
  {
    if clicks != [] {
      var next := Toggled(expanded, clicks[0]);
      var k := Count(clicks[1..], section);
      assert AfterClicks(expanded, clicks) == AfterClicks(next, clicks[1..]);
      OpenAfterClicks(next, clicks[1..], section);
      if clicks[0] == section {
        assert Count(clicks, section) == k + 1;
        assert (k + 1) % 2 == 1 <==> k % 2 != 1;
      } else {
        assert Count(clicks, section) == k;
        ToggleIsLocal(expanded, clicks[0], section);
      }
    }
  }

  /** Clicking the same section twice restores every section. */
  lemma ToggleTwiceRestores(expanded: map<string, bool>, section: string, any: string)
    ensures IsOpen(AfterClicks(expanded, [section, section]), any) <==> IsOpen(expanded, any)
  {
    OpenAfterClicks(expanded, [section, section], any);
  }

  /** The accordion's state cell. */
  class Accordion {
    var expandedSections: map<string, bool>

    constructor ()
      ensures expandedSections == map[]
      ensures forall s :: !IsOpen(expandedSections, s)
    {
      expandedSections := map[];
    }

    /** `toggleSection`. */
    method ToggleSection(section: string)
      modifies this
      ensures expandedSections == Toggled(old(expandedSections), section)
      ensures IsOpen(expandedSections, section) <==> !IsOpen(old(expandedSections), section)
    {
      expandedSections := Toggled(expandedSections, section);
    }
  }
}
