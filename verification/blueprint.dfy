/**
  The state and lookups behind the project cards (src/components/Blueprint.tsx): which
  collapsible sections are open, the key each section is stored under, and the status
  badge's label and colour classes.
 */
module Blueprint {
  import opened Seqs
  import opened Data

  // ---------------------------------------------------------------------------
  // Expand/collapse state
  // ---------------------------------------------------------------------------

  /** `expanded[key]` read as a condition: a key that was never set is closed. */
  predicate IsExpanded(m: map<string, bool>, key: string) {
    key in m && m[key]
  }

  /**
    The state `toggleExpanded(key)` hands to React: `{...prev, [key]: !prev[key]}`. The key is
    flipped, with an absent key read as closed, and every other entry is copied as it was.
   */
  function Toggle(m: map<string, bool>, key: string): (r: map<string, bool>)
    ensures r.Keys == m.Keys + {key}
    ensures IsExpanded(r, key) <==> !IsExpanded(m, key)
    ensures forall k :: k in m && k != key ==> r[k] == m[k]
  {
    m[key := !IsExpanded(m, key)]
  }

  /** Toggling one section never opens or closes another one. */
  lemma ToggleLeavesOthers(m: map<string, bool>, key: string, other: string)
    requires other != key
    ensures IsExpanded(Toggle(m, key), other) == IsExpanded(m, other)
  {
  }

  /** Toggling twice shows the same sections as before. */
  lemma ToggleTwice(m: map<string, bool>, key: string, k: string)
    ensures IsExpanded(Toggle(Toggle(m, key), key), k) == IsExpanded(m, k)
  {
  }

  /** Two different sections can be toggled in either order with the same result. */
  lemma TogglesCommute(m: map<string, bool>, a: string, b: string)
    requires a != b
    ensures Toggle(Toggle(m, a), b) == Toggle(Toggle(m, b), a)
  {
  }

  /** The state after `n` clicks on the same section. */
  function ToggleTimes(m: map<string, bool>, key: string, n: nat): map<string, bool> {
    if n == 0 then m else Toggle(ToggleTimes(m, key, n - 1), key)
  }

  /** After `n` clicks a section is open exactly when it was open before and `n` is even, or closed before and `n` is odd. */
  lemma {:induction false} ToggleParity(m: map<string, bool>, key: string, n: nat)
    ensures IsExpanded(ToggleTimes(m, key, n), key) <==> (IsExpanded(m, key) <==> n % 2 == 0)
  {
    if n > 0 {
      ToggleParity(m, key, n - 1);
    }
  }

  /** Starting from nothing open, an odd number of clicks leaves the section open. */
  lemma FromClosedOddOpens(key: string, n: nat)
    ensures IsExpanded(ToggleTimes(map[], key, n), key) <==> n % 2 == 1
  {
    ToggleParity(map[], key, n);
  }

  /**
    The component's state: the `expanded` map from `useState({})` and the language it is
    rendered in. The language comes from a prop; re-rendering with another language keeps state.
   */
  class BlueprintView {
    var expanded: map<string, bool>
    var isPortuguese: bool

    constructor(isPortuguese: bool)
      ensures expanded == map[]
      ensures this.isPortuguese == isPortuguese
    {
      expanded := map[];
      this.isPortuguese := isPortuguese;
    }

    predicate IsOpen(key: string)
      reads this
    {
      IsExpanded(expanded, key)
    }

    /** `toggleExpanded(key)`. */
    method ToggleExpanded(key: string)
      modifies this
      ensures expanded == Toggle(old(expanded), key)
      ensures isPortuguese == old(isPortuguese)
      ensures IsOpen(key) <==> !old(IsOpen(key))
    {
      expanded := Toggle(expanded, key);
    }

    /** A re-render with a new `language` prop: the open sections stay open. */
    method SetLanguage(isPortuguese: bool)
      modifies this
      ensures expanded == old(expanded)
      ensures this.isPortuguese == isPortuguese
    {
      this.isPortuguese := isPortuguese;
    }
  }

  // ---------------------------------------------------------------------------
  // Section keys
  // ---------------------------------------------------------------------------

  datatype Section = Challenge | SolutionBlueprint | Decisions | Tech

  function SectionSuffix(s: Section): string {
    match s
    case Challenge => "challenge"
    case SolutionBlueprint => "blueprint"
    case Decisions => "decisions"
    case Tech => "tech"
  }

  /** The key a section's button toggles: `${project.id}-challenge` and its three siblings. */
  function SectionKey(projectId: string, s: Section): (r: string)
    ensures |r| == |projectId| + 1 + |SectionSuffix(s)|
    ensures r[..|projectId|] == projectId
    ensures r[|projectId|] == '-' && r[|projectId| + 1..] == SectionSuffix(s)
  {
    projectId + "-" + SectionSuffix(s)
  }

  /** The last character of each suffix tells the sections apart. */
  lemma SuffixEndsDiffer(s1: Section, s2: Section)
    requires s1 != s2
    ensures SectionSuffix(s1)[|SectionSuffix(s1)| - 1] != SectionSuffix(s2)[|SectionSuffix(s2)| - 1]
  {
  }

  lemma KeyEndsWithSuffix(projectId: string, s: Section)
    ensures SectionKey(projectId, s)[|SectionKey(projectId, s)| - 1] == SectionSuffix(s)[|SectionSuffix(s)| - 1]
  {
  }

  /** Distinct (project, section) pairs never share a key, whatever the ids are. */
  lemma SectionKeyInjective(id1: string, s1: Section, id2: string, s2: Section)
    requires SectionKey(id1, s1) == SectionKey(id2, s2)
    ensures id1 == id2 && s1 == s2
  {
    if s1 != s2 {
      SuffixEndsDiffer(s1, s2);
      KeyEndsWithSuffix(id1, s1);
      KeyEndsWithSuffix(id2, s2);
    } else {
      assert |id1| == |id2|;
    }
  }

  /** So opening one section of one card leaves every other section of every card as it was. */
  lemma ToggleSectionIsolated(m: map<string, bool>, id1: string, s1: Section, id2: string, s2: Section)
    requires id1 != id2 || s1 != s2
    ensures IsExpanded(Toggle(m, SectionKey(id1, s1)), SectionKey(id2, s2)) == IsExpanded(m, SectionKey(id2, s2))
  {
    if SectionKey(id1, s1) == SectionKey(id2, s2) {
      SectionKeyInjective(id1, s1, id2, s2);
    }
  }

  // ---------------------------------------------------------------------------
  // Status badge
  // ---------------------------------------------------------------------------

  function StatusText(st: Status, isPortuguese: bool): string {
    match st
    case Production => if isPortuguese then "Produção" else "Production"
    case Staging => "Staging"
    case Poc => "PoC"
    case Maintenance => if isPortuguese then "Manutenção" else "Maintenance"
  }

  /** `statusLabel(status)`: the badge text for one of the four status values, nothing for any other string. */
  function StatusLabel(status: string, isPortuguese: bool): (r: Option<string>)
    ensures r.Some? <==> exists st: Status :: StatusName(st) == status
    ensures forall st: Status :: StatusName(st) == status ==> r == Some(StatusText(st, isPortuguese))
  {
    match StatusFromName(status)
    case Some(st) => Some(StatusText(st, isPortuguese))
    case None => None
  }

  /** `PoC` and `Staging` read the same in both languages; the other two are translated. */
  lemma StatusLabelLanguages()
    ensures StatusLabel("poc", true) == StatusLabel("poc", false) == Some("PoC")
    ensures StatusLabel("staging", true) == StatusLabel("staging", false) == Some("Staging")
    ensures StatusLabel("production", true) == Some("Produção") && StatusLabel("production", false) == Some("Production")
    ensures StatusLabel("maintenance", true) == Some("Manutenção") && StatusLabel("maintenance", false) == Some("Maintenance")
  {
    StatusNameRoundTrip(Poc);
    StatusNameRoundTrip(Staging);
    StatusNameRoundTrip(Production);
    StatusNameRoundTrip(Maintenance);
  }

  /** In either language, the four badges read differently. */
  lemma StatusTextsDistinct(st1: Status, st2: Status, isPortuguese: bool)
    requires st1 != st2
    ensures StatusText(st1, isPortuguese) != StatusText(st2, isPortuguese)
  {
  }

  function StatusClasses(st: Status): string {
    match st
    case Production => "bg-green-900 text-green-200 border-green-700"
    case Staging => "bg-yellow-900 text-yellow-200 border-yellow-700"
    case Poc => "bg-blue-900 text-blue-200 border-blue-700"
    case Maintenance => "bg-slate-700 text-slate-300 border-slate-600"
  }

  /** `getStatusColor(status)`: the classes of a known status, and the maintenance classes for any other string. */
  function GetStatusColor(status: string): (r: string)
    ensures forall st: Status :: StatusName(st) == status ==> r == StatusClasses(st)
    ensures (forall st: Status :: StatusName(st) != status) ==> r == StatusClasses(Maintenance)
  {
    match StatusFromName(status)
    case Some(st) => StatusClasses(st)
    case None => StatusClasses(Maintenance)
  }

  /** The four statuses get four different badge colours. */
  lemma StatusClassesDistinct(st1: Status, st2: Status)
    requires st1 != st2
    ensures StatusClasses(st1) != StatusClasses(st2)
  {
  }
}
