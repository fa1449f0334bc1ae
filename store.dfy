/**
 The todo store: a map from entry name to entry, the three handlers that
 change it in place (add, toggle, remove) and the read-only listing.

 The pure functions `Added`, `Toggled`, `Removed`, `Visible` and `Listing`
 say what each handler means on the map; the class `State` holds the map
 and its methods are proved against those functions.
 */
module Store {

  /** One todo item; its identity is the key it is stored under. */
  datatype Entry = Entry(checked: bool)

  type Entries = map<string, Entry>

  // ---------------------------------------------------------------------
  // What the handlers do to the map
  // ---------------------------------------------------------------------

  /** handle_add: `name` is (re)inserted unchecked; every other key keeps its entry. */
  function Added(m: Entries, name: string): (r: Entries)
    ensures r.Keys == m.Keys + {name}
    ensures r[name] == Entry(false)
    ensures forall k :: k in m && k != name ==> r[k] == m[k]
  {
    m[name := Entry(false)]
  }

  /**
   handle_toggle: a present entry has its flag negated; an absent name
   leaves the map as it was (and creates nothing).
   */
  function Toggled(m: Entries, name: string): (r: Entries)
    ensures r.Keys == m.Keys
    ensures name in m ==> r[name].checked == !m[name].checked
    ensures forall k :: k in m && k != name ==> r[k] == m[k]
    ensures name !in m ==> r == m
  {
    if name in m then m[name := Entry(!m[name].checked)] else m
  }

  /** handle_remove: `name` is no longer a key; every other key keeps its entry. */
  function Removed(m: Entries, name: string): (r: Entries)
    ensures r.Keys == m.Keys - {name}
    ensures forall k :: k in r ==> r[k] == m[k]
    ensures name !in m ==> r == m
  {
    m - {name}
  }

  // ---------------------------------------------------------------------
  // Laws of the handlers
  // ---------------------------------------------------------------------

  /** Adding the same name twice gives the state that adding it once gives. */
  lemma AddIdempotent(m: Entries, name: string)
    ensures Added(Added(m, name), name) == Added(m, name)
  {
  }

  /** Re-adding a checked entry resets it: the result does not depend on the old flag. */
  lemma AddForgetsOldFlag(m: Entries, name: string, old_checked: bool)
    ensures Added(m[name := Entry(old_checked)], name) == Added(m, name)
  {
  }

  /** Toggling twice restores the original state, whether or not the name is present. */
  lemma ToggleInvolution(m: Entries, name: string)
    ensures Toggled(Toggled(m, name), name) == m
  {
  }

  /** Removing twice: the second removal finds nothing and changes nothing. */
  lemma RemoveTwice(m: Entries, name: string)
    ensures name !in Removed(m, name)
    ensures Removed(Removed(m, name), name) == Removed(m, name)
  {
  }

  // ---------------------------------------------------------------------
  // The listing
  // ---------------------------------------------------------------------

  /**
   handle_list's visibility rule: a checked entry is shown unless checked
   entries are hidden, an unchecked one unless unchecked entries are hidden.
   */
  function IsShown(checked: bool, hideChecked: bool, hideUnchecked: bool): (show: bool)
    ensures show <==> (checked && !hideChecked) || (!checked && !hideUnchecked)
    ensures hideChecked && hideUnchecked ==> !show
    ensures !hideChecked && !hideUnchecked ==> show
  {
    if checked then !hideChecked else !hideUnchecked
  }

  /** The check box printed in front of a name: `[x]` exactly for a checked entry. */
  function Checkbox(checked: bool): (box: string)
    ensures |box| == 3
    ensures box == "[x]" <==> checked
    ensures box == "[ ]" <==> !checked
  {
    if checked then "[x]" else "[ ]"
  }

  /** One printed line of the listing: the check box, a space, the name. */
  function RenderLine(name: string, checked: bool): (line: string)
    ensures |line| == |name| + 4
  {
    Checkbox(checked) + " " + name
  }

  /** Reads a listing line back into the name and flag it shows, if it is one. */
  function ParseLine(line: string): (r: Option<(string, bool)>)
    ensures r.Some? ==> |line| >= 4 && line[4..] == r.value.0
  {
    if |line| >= 4 && line[3] == ' ' && (line[..3] == "[x]" || line[..3] == "[ ]")
    then Some((line[4..], line[..3] == "[x]"))
    else None
  }

  datatype Option<T> = None | Some(value: T)

  /** A listing line determines the entry it was printed for. */
  lemma ParseRenderLine(name: string, checked: bool)
    ensures ParseLine(RenderLine(name, checked)) == Some((name, checked))
  {
  }

  /** Two entries never print the same string (a name may itself hold a newline). */
  lemma RenderLineInjective(n1: string, c1: bool, n2: string, c2: bool)
    ensures RenderLine(n1, c1) == RenderLine(n2, c2) ==> n1 == n2 && c1 == c2
  {
    ParseRenderLine(n1, c1);
    ParseRenderLine(n2, c2);
  }

  /** The names handle_list prints a line for. */
  function Visible(m: Entries, hideChecked: bool, hideUnchecked: bool): (names: set<string>)
    ensures names <= m.Keys
  {
    set n | n in m && IsShown(m[n].checked, hideChecked, hideUnchecked)
  }

  /** The lines printed for the names in `names`, as a set: the order is the map's, which is unspecified. */
  function Lines(m: Entries, names: set<string>): (lines: set<string>)
  {
    set n | n in names && n in m :: RenderLine(n, m[n].checked)
  }

  /**
   The set of lines handle_list prints: the line of every entry the rule
   shows, and each line reads back to a shown entry with that flag.
   */
  function Listing(m: Entries, hideChecked: bool, hideUnchecked: bool): (lines: set<string>)
    ensures forall n :: n in m && IsShown(m[n].checked, hideChecked, hideUnchecked) ==>
              RenderLine(n, m[n].checked) in lines
    ensures forall line :: line in lines ==>
              && ParseLine(line).Some?
              && ParseLine(line).value.0 in m
              && m[ParseLine(line).value.0].checked == ParseLine(line).value.1
              && IsShown(ParseLine(line).value.1, hideChecked, hideUnchecked)
  {
    Lines(m, Visible(m, hideChecked, hideUnchecked))
  }

  /** A line is printed for a set of names exactly when it is the line of one of them. */
  lemma LinesMembership(m: Entries, names: set<string>, name: string, checked: bool)
    ensures RenderLine(name, checked) in Lines(m, names)
            <==> name in names && name in m && m[name].checked == checked
  {
    var line := RenderLine(name, checked);
    if line in Lines(m, names) {
      var n :| n in names && n in m && RenderLine(n, m[n].checked) == line;
      RenderLineInjective(n, m[n].checked, name, checked);
    }
  }

  /**
   The listing shows `[x] name` or `[ ] name` exactly for the entries the
   visibility rule lets through, with the check box matching the entry.
   */
  lemma ListingMembership(m: Entries, hideChecked: bool, hideUnchecked: bool, name: string, checked: bool)
    ensures RenderLine(name, checked) in Listing(m, hideChecked, hideUnchecked)
            <==> name in m && m[name].checked == checked
                 && ((checked && !hideChecked) || (!checked && !hideUnchecked))
  {
    LinesMembership(m, Visible(m, hideChecked, hideUnchecked), name, checked);
  }

  /** Both flags set: nothing is listed; neither set: every entry is listed. */
  lemma VisibleExtremes(m: Entries)
    ensures Visible(m, true, true) == {}
    ensures Visible(m, false, false) == m.Keys
  {
  }

  /** The two hide flags split the entries: unchecked ones and checked ones, disjointly. */
  lemma VisiblePartition(m: Entries)
    ensures Visible(m, false, false) == Visible(m, true, false) + Visible(m, false, true)
    ensures Visible(m, true, false) !! Visible(m, false, true)
    ensures forall n :: n in Visible(m, true, false) <==> n in m && !m[n].checked
  {
  }

  /** No line of `lines` appears twice. */
  ghost predicate NoDuplicates(lines: seq<string>)
  {
    forall i, j :: 0 <= i < j < |lines| ==> lines[i] != lines[j]
  }

  /** `lines[i]` is the listing line of the entry named `order[i]`. */
  ghost predicate PrintedFor(m: Entries, order: seq<string>, lines: seq<string>)
  {
    && |order| == |lines|
    && forall i :: 0 <= i < |order| ==>
         order[i] in m && lines[i] == RenderLine(order[i], m[order[i]].checked)
  }

  /**
   Printing the line of an entry not yet visited keeps the lines in step
   with the names and adds no duplicate.
   */
  lemma PrintNext(m: Entries, order: seq<string>, lines: seq<string>, name: string)
    requires PrintedFor(m, order, lines) && NoDuplicates(lines)
    requires name in m && name !in order
    ensures PrintedFor(m, order + [name], lines + [RenderLine(name, m[name].checked)])
    ensures NoDuplicates(lines + [RenderLine(name, m[name].checked)])
  {
    var line := RenderLine(name, m[name].checked);
    forall i | 0 <= i < |lines| ensures lines[i] != line {
      RenderLineInjective(order[i], m[order[i]].checked, name, m[name].checked);
    }
  }

  /** Lines printed for every name of `names` and no other are exactly `Lines(m, names)`. */
  lemma PrintedLines(m: Entries, names: set<string>, order: seq<string>, lines: seq<string>)
    requires PrintedFor(m, order, lines)
    requires forall i :: 0 <= i < |order| ==> order[i] in names
    requires forall n :: n in names ==> n in order
    ensures forall line :: line in lines <==> line in Lines(m, names)
  {
  }

  // ---------------------------------------------------------------------
  // The state, changed in place
  // ---------------------------------------------------------------------

  /** The persisted root: the map from entry name to entry. */
  class State {
    var entries: Entries

    /** `Default::default()`: the empty state. */
    constructor Default()
      ensures entries == map[]
    {
      entries := map[];
    }

    /** A state holding the given entries (what deserialising the file produces). */
    constructor FromEntries(m: Entries)
      ensures entries == m
    {
      entries := m;
    }

    /** handle_add: insert or overwrite `name` with an unchecked entry. */
    method Add(name: string)
      modifies this
      ensures entries == Added(old(entries), name)
    {
      entries := entries[name := Entry(false)];
    }

    /**
     handle_toggle: flip the entry in place if present; `found` is false
     when the not-found line is printed instead.
     */
    method Toggle(name: string) returns (found: bool)
      modifies this
      ensures found <==> name in old(entries)
      ensures entries == Toggled(old(entries), name)
    {
      if name in entries {
        var entry := entries[name];
        entries := entries[name := entry.(checked := !entry.checked)];
        found := true;
      } else {
        found := false;
      }
    }

    /**
     handle_remove: delete the entry; the removed value comes back as an
     option and `found` is false when it was none (the not-found line).
     */
    method Remove(name: string) returns (found: bool)
      modifies this
      ensures found <==> name in old(entries)
      ensures entries == Removed(old(entries), name)
    {
      var res: Option<Entry> := if name in entries then Some(entries[name]) else None;
      entries := entries - {name};
      found := res.Some?;
    }

    /**
     handle_list: visit every entry once, in an order the map does not
     fix (each step takes any unvisited name), and print the line of each
     visible one. The result is one line per visible entry, no line twice,
     and exactly the lines of `Listing`.
     */
    method List(hideChecked: bool, hideUnchecked: bool) returns (lines: seq<string>)
      ensures NoDuplicates(lines)
      ensures forall line :: line in lines <==> line in Listing(entries, hideChecked, hideUnchecked)
      ensures |lines| == |Visible(entries, hideChecked, hideUnchecked)|
    {
      var unvisited := entries.Keys;
      lines := [];
      ghost var listed: set<string> := {};
      ghost var order: seq<string> := [];
      ghost var visible := Visible(entries, hideChecked, hideUnchecked);
      while unvisited != {}
        invariant unvisited <= entries.Keys
        invariant listed <= visible && listed !! unvisited
        invariant forall n :: n in visible && n !in unvisited ==> n in listed
        invariant |listed| == |lines|
        invariant PrintedFor(entries, order, lines)
        invariant forall i :: 0 <= i < |order| ==> order[i] in listed
        invariant forall n :: n in listed ==> n in order
        invariant NoDuplicates(lines)
        decreases unvisited
      {
        var name :| name in unvisited;
        var entry := entries[name];
        var show := if entry.checked then !hideChecked else !hideUnchecked;
        assert show <==> name in visible;
        if show {
          var checkbox := if entry.checked then "[x]" else "[ ]";
          var line := checkbox + " " + name;
          assert line == RenderLine(name, entry.checked);
          PrintNext(entries, order, lines, name);
          assert name !in listed;
          lines := lines + [line];
          order := order + [name];
          listed := listed + {name};
        }
        unvisited := unvisited - {name};
      }
      assert listed == visible;
      PrintedLines(entries, visible, order, lines);
    }
  }
}
