/**
 One run of the command-line program: the state is loaded from the stored
 file, the one parsed command is applied to it, and the result is saved.

 Argument parsing, JSON and the file system are not modelled: the command
 arrives already parsed, the stored file arrives already read and decoded
 (or not), and whether the final write succeeds is a parameter.
 */
module Cli {
  import opened Store

  /** The four subcommands, as the argument parser produces them. */
  datatype Opt =
    | List(hideChecked: bool, hideUnchecked: bool)
    | Add(name: string)
    | Toggle(name: string)
    | Remove(name: string)

  /** What reading and decoding the state file gave. */
  datatype Stored =
    | Unreadable                   // the file could not be read (missing, permissions, ...)
    | Unparsable                   // the text is not a serialised state
    | Parsed(entries: Entries)     // the decoded state

  /** The two non-fatal warnings of loading; both fall back to the empty state. */
  datatype LoadError = ReadError | ParseError

  /** What dispatching one command printed. */
  datatype Outcome =
    | Listed(lines: seq<string>)   // the lines of the listing
    | Quiet                        // nothing (add, or toggle/remove of a present entry)
    | NotFound                     // the not-found line of toggle and remove

  /** How the process ends, given that console writes succeed: only the final save can then make it fail. */
  datatype Exit = Success | WriteFailed

  /** Everything one run produces. */
  datatype Report = Report(
    warning: Option<LoadError>,    // the warning printed while loading, if any
    outcome: Outcome,              // what the command printed
    saved: Entries,                // the state handed to the save
    exit: Exit)                    // whether that save succeeded

  /** The entries the program starts from: the decoded ones, or none at all. */
  function Loaded(stored: Stored): (m: Entries)
    ensures stored.Parsed? ==> m == stored.entries
    ensures !stored.Parsed? ==> |m| == 0
  {
    match stored
    case Parsed(entries) => entries
    case _ => map[]
  }

  /**
   The entries the program saves after `opt`: List keeps the map, Add leaves
   the name unchecked, Toggle keeps the keys and flips a present entry,
   Remove drops the name.
   */
  function Step(m: Entries, opt: Opt): (r: Entries)
    ensures opt.List? ==> r == m
    ensures opt.Add? ==> r.Keys == m.Keys + {opt.name} && !r[opt.name].checked
    ensures opt.Toggle? ==> r.Keys == m.Keys && (opt.name in m ==> r[opt.name].checked != m[opt.name].checked)
    ensures opt.Remove? ==> r.Keys == m.Keys - {opt.name}
    ensures !opt.List? ==> forall k :: k in r && k != opt.name ==> r[k] == m[k]
  {
    match opt
    case List(_, _) => m
    case Add(name) => Added(m, name)
    case Toggle(name) => Toggled(m, name)
    case Remove(name) => Removed(m, name)
  }

  /** Every command except List touches only the entry it names. */
  lemma StepTouchesOnlyItsName(m: Entries, opt: Opt, k: string)
    requires opt.List? || k != opt.name
    ensures k in Step(m, opt) <==> k in m
    ensures k in m ==> Step(m, opt)[k] == m[k]
  {
  }

  /** Commands on two different names can run in either order with the same result. */
  lemma DistinctNamesCommute(m: Entries, a: Opt, b: Opt)
    requires !a.List? && !b.List? && a.name != b.name
    ensures Step(Step(m, a), b) == Step(Step(m, b), a)
  {
  }

  /** `lines` is a listing of `m` under the two hide flags: every visible entry once, nothing else. */
  ghost predicate IsListing(lines: seq<string>, m: Entries, hideChecked: bool, hideUnchecked: bool)
  {
    && NoDuplicates(lines)
    && (forall line :: line in lines <==> line in Listing(m, hideChecked, hideUnchecked))
    && |lines| == |Visible(m, hideChecked, hideUnchecked)|
  }

  /**
   current_state: read the file, then decode it; either failure prints a
   warning and starts from the empty state instead of stopping.
   */
  method CurrentState(stored: Stored) returns (state: State, warning: Option<LoadError>)
    ensures fresh(state)
    ensures state.entries == Loaded(stored)
    ensures warning == None <==> stored.Parsed?
    ensures stored.Unreadable? ==> warning == Some(ReadError)
    ensures stored.Unparsable? ==> warning == Some(ParseError)
  {
    if stored.Unreadable? {
      state := new State.Default();
      warning := Some(ReadError);
    } else if stored.Unparsable? {
      state := new State.Default();
      warning := Some(ParseError);
    } else {
      state := new State.FromEntries(stored.entries);
      warning := None;
    }
  }

  /** The `match opt` of main: hand the state to the handler of the command. */
  method Dispatch(state: State, opt: Opt) returns (outcome: Outcome)
    modifies state
    ensures state.entries == Step(old(state.entries), opt)
    ensures outcome.Listed? <==> opt.List?
    ensures opt.List? ==> IsListing(outcome.lines, state.entries, opt.hideChecked, opt.hideUnchecked)
    ensures outcome.NotFound? <==> !opt.List? && !opt.Add? && opt.name !in old(state.entries)
  {
    if opt.List? {
      var lines := state.List(opt.hideChecked, opt.hideUnchecked);
      outcome := Listed(lines);
    } else if opt.Add? {
      state.Add(opt.name);
      outcome := Quiet;
    } else if opt.Toggle? {
      var found := state.Toggle(opt.name);
      outcome := if found then Quiet else NotFound;
    } else {
      var found := state.Remove(opt.name);
      outcome := if found then Quiet else NotFound;
    }
  }

  /**
   main: load, apply the one command, save. The saved state is the loaded
   one changed by exactly that command (unchanged for List); a load problem
   is only a warning. Console writes are taken to succeed, so only a failed
   save makes the run fail.
   */
  method Run(opt: Opt, stored: Stored, writeSucceeds: bool) returns (report: Report)
    ensures report.saved == Step(Loaded(stored), opt)
    ensures opt.List? ==> report.saved == Loaded(stored)
    ensures report.warning == None <==> stored.Parsed?
    ensures report.outcome.Listed? <==> opt.List?
    ensures opt.List? ==> IsListing(report.outcome.lines, Loaded(stored), opt.hideChecked, opt.hideUnchecked)
    ensures report.outcome.NotFound? <==> !opt.List? && !opt.Add? && opt.name !in Loaded(stored)
    ensures report.exit == Success <==> writeSucceeds
  {
    var state, warning := CurrentState(stored);
    var outcome := Dispatch(state, opt);
    report := Report(warning, outcome, state.entries, if writeSucceeds then Success else WriteFailed);
  }

  /**
   A session of separate runs, each starting from what the previous one
   saved: add "milk", list, toggle it, list, list hiding checked entries,
   remove it, list.
   */
  method MilkSession() returns (first: seq<string>, second: seq<string>, third: seq<string>, fourth: seq<string>)
    ensures first == ["[ ] milk"]
    ensures second == ["[x] milk"]
    ensures third == []
    ensures fourth == []
  {
    var r := Run(Add("milk"), Unreadable, true);
    assert r.saved == map["milk" := Entry(false)];
    r := Run(List(false, false), Parsed(r.saved), true);
    first := r.outcome.lines;
    SingleListing(first, map["milk" := Entry(false)], "milk");
    assert RenderLine("milk", false) == "[ ] milk";
    r := Run(Toggle("milk"), Parsed(r.saved), true);
    assert r.saved == map["milk" := Entry(true)];
    r := Run(List(false, false), Parsed(r.saved), true);
    second := r.outcome.lines;
    SingleListing(second, map["milk" := Entry(true)], "milk");
    assert RenderLine("milk", true) == "[x] milk";
    r := Run(List(true, false), Parsed(r.saved), true);
    third := r.outcome.lines;
    assert Visible(map["milk" := Entry(true)], true, false) == {};
    r := Run(Remove("milk"), Parsed(r.saved), true);
    r := Run(List(false, false), Parsed(r.saved), true);
    fourth := r.outcome.lines;
    assert Visible(map[], false, false) == {};
  }

  /** A listing of a one-entry state with no flags is that entry's line alone. */
  lemma SingleListing(lines: seq<string>, m: Entries, name: string)
    requires m.Keys == {name}
    requires IsListing(lines, m, false, false)
    ensures lines == [RenderLine(name, m[name].checked)]
  {
    assert Visible(m, false, false) == {name};
    ListingMembership(m, false, false, name, m[name].checked);
  }
}
