/** The snippet browser: CML snippets sorted into five collapsible
    sections by the keywords their CML text contains. */
module Studio {
  import opened Wrappers
  import opened Text
  import opened Seqs

  /** A CML snippet record; `cml` is `None` when the record has no CML text. */
  datatype Snippet = Snippet(id: string, name: string, cml: Option<string>)

  /** The five section keys, `constraints`, `require`, `message`,
      `setdefault` and `rule`. */
  datatype SectionKey = Constraints | Require | Message | SetDefault | Rule

  /** One section of `groupedSnippets`; `title` is the source's `label`. */
  datatype Group = Group(title: string, items: seq<Snippet>, expanded: bool)

  /** The `groupedSnippets` object: one group under each of the five keys. */
  datatype Groups = Groups(constraints: Group, require: Group, message: Group, setdefault: Group, rule: Group)
  {
    /** `groupedSnippets[k]`. */
    function Get(k: SectionKey): Group
    {
      match k
      case Constraints => constraints
      case Require => require
      case Message => message
      case SetDefault => setdefault
      case Rule => rule
    }

    /** `groupedSnippets[k] = grp`: key `k` now holds `grp`, the others are kept. */
    function Set(k: SectionKey, grp: Group): (r: Groups)
      ensures r.Get(k) == grp
      ensures forall j :: j != k ==> r.Get(j) == Get(j)
    {
      match k
      case Constraints => this.(constraints := grp)
      case Require => this.(require := grp)
      case Message => this.(message := grp)
      case SetDefault => this.(setdefault := grp)
      case Rule => this.(rule := grp)
    }
  }

  /** One entry of the `sections` list the template renders. */
  datatype Section = Section(key: SectionKey, title: string, items: seq<Snippet>, expanded: bool, hasItems: bool)

  /** The keys in declaration order, the order `Object.keys` lists them. */
  const KeyOrder: seq<SectionKey> := [Constraints, Require, Message, SetDefault, Rule]

  lemma KeyOrderComplete()
    ensures forall k :: k in KeyOrder
  {
    forall k ensures k in KeyOrder {
      match k
      case Constraints => assert KeyOrder[0] == k;
      case Require => assert KeyOrder[1] == k;
      case Message => assert KeyOrder[2] == k;
      case SetDefault => assert KeyOrder[3] == k;
      case Rule => assert KeyOrder[4] == k;
    }
  }

  /** The lower-case keyword that sends a snippet to a section. */
  function Keyword(k: SectionKey): string
  {
    match k
    case Constraints => "constraint"
    case Require => "require"
    case Message => "message"
    case SetDefault => "setdefault"
    case Rule => "rule"
  }

  /** The snippet's CML text in lower case, or "" when it has none. */
  function LoweredCml(s: Snippet): string
  {
    match s.cml
    case None => ""
    case Some(c) => Lower(c)
  }

  predicate HasKeyword(s: Snippet, k: SectionKey)
  {
    Contains(LoweredCml(s), Keyword(k))
  }

  predicate HasAnyKeyword(s: Snippet)
  {
    HasKeyword(s, Constraints) || HasKeyword(s, Require) || HasKeyword(s, Message)
    || HasKeyword(s, SetDefault) || HasKeyword(s, Rule)
  }

  /** Section `k` receives `s` when the snippet's CML contains `k`'s keyword,
      and `Constraints` also receives every snippet that contains none. */
  predicate InGroup(s: Snippet, k: SectionKey)
  {
    HasKeyword(s, k) || (k == Constraints && !HasAnyKeyword(s))
  }

  /** The items section `k` holds after grouping `snips`. */
  function Bucket(snips: seq<Snippet>, k: SectionKey): seq<Snippet>
  {
    Filter(snips, s => InGroup(s, k))
  }

  /** Two group records are equal when they agree on every key. */
  lemma GroupsExt(a: Groups, b: Groups)
    requires forall k :: a.Get(k) == b.Get(k)
    ensures a == b
  {
    assert a.Get(Constraints) == b.Get(Constraints) && a.Get(Require) == b.Get(Require);
    assert a.Get(Message) == b.Get(Message) && a.Get(SetDefault) == b.Get(SetDefault);
    assert a.Get(Rule) == b.Get(Rule);
  }

  /** `groups` with section `k`'s items replaced by `items`. */
  function WithItems(groups: Groups, k: SectionKey, items: seq<Snippet>): Groups
  {
    groups.Set(k, groups.Get(k).(items := items))
  }

  /** The groups after `groupSnippets`: titles and flags kept, items rebuilt
      from `snips` alone. */
  function Regrouped(g: Groups, snips: seq<Snippet>): Groups
  {
    Groups(g.constraints.(items := Bucket(snips, Constraints)),
           g.require.(items := Bucket(snips, Require)),
           g.message.(items := Bucket(snips, Message)),
           g.setdefault.(items := Bucket(snips, SetDefault)),
           g.rule.(items := Bucket(snips, Rule)))
  }

  /** The groups after `handleToggleSection(k)`. */
  function Toggled(g: Groups, k: SectionKey): Groups
  {
    g.Set(k, g.Get(k).(expanded := !g.Get(k).expanded))
  }

  /** The `sections` getter: the five groups in declaration order, each
      section showing its group's title, items and flag, and having items
      exactly when its group does. */
  function SectionsOf(g: Groups): (r: seq<Section>)
    ensures |r| == 5
    ensures forall i :: 0 <= i < 5 ==>
      var grp := g.Get(KeyOrder[i]);
      r[i].key == KeyOrder[i] && r[i].title == grp.title && r[i].items == grp.items
      && r[i].expanded == grp.expanded && (r[i].hasItems <==> grp.items != [])
  {
    seq(|KeyOrder|, i requires 0 <= i < |KeyOrder| =>
      var k := KeyOrder[i];
      Section(k, g.Get(k).title, g.Get(k).items, g.Get(k).expanded, |g.Get(k).items| > 0))
  }

  /** The five groups as the component starts: titled, empty, expanded. */
  function InitialGroups(): Groups
  {
    Groups(Group("Constraints", [], true), Group("Require", [], true), Group("Message", [], true),
           Group("SetDefault", [], true), Group("Rule", [], true))
  }

  /** `g` with `s` appended to section `k`'s items when `b` holds. */
  function PushWhen(g: Groups, k: SectionKey, s: Snippet, b: bool): Groups
  {
    if b then WithItems(g, k, g.Get(k).items + [s]) else g
  }

  /** `g` with `s` appended to every section it belongs to. */
  function Placed(g: Groups, s: Snippet): Groups
  {
    Groups(g.constraints.(items := g.constraints.items + (if InGroup(s, Constraints) then [s] else [])),
           g.require.(items := g.require.items + (if InGroup(s, Require) then [s] else [])),
           g.message.(items := g.message.items + (if InGroup(s, Message) then [s] else [])),
           g.setdefault.(items := g.setdefault.items + (if InGroup(s, SetDefault) then [s] else [])),
           g.rule.(items := g.rule.items + (if InGroup(s, Rule) then [s] else [])))
  }

  // ---------------------------------------------------------------------
  // Properties of the grouping

  /** Section `k` holds exactly the snippets that belong to it, in the order
      of the snippet list (`picked` lists their positions). */
  lemma BucketSpec(snips: seq<Snippet>, k: SectionKey) returns (picked: seq<nat>)
    ensures Increasing(picked) && |Bucket(snips, k)| == |picked|
    ensures forall i :: 0 <= i < |picked| ==>
      picked[i] < |snips| && Bucket(snips, k)[i] == snips[picked[i]]
    ensures forall j :: 0 <= j < |snips| ==> (j in picked <==> InGroup(snips[j], k))
  {
    var keep := s => InGroup(s, k);
    FilterIndices(snips, keep);
    picked := KeptIndices(snips, keep);
  }

  /** A snippet with no keyword, and in particular one without CML text,
      goes to `Constraints` and nowhere else. */
  lemma DefaultToConstraints(s: Snippet)
    requires s.cml.None? || !HasAnyKeyword(s)
    ensures InGroup(s, Constraints)
    ensures forall k :: k != Constraints ==> !InGroup(s, k)
  {
    if s.cml.None? {
      assert LoweredCml(s) == "";
      forall k: SectionKey ensures !HasKeyword(s, k) {
        assert !IsPrefix(Keyword(k), "");
      }
    }
  }

  /** Every snippet lands in at least one section. */
  lemma EverySnippetGrouped(s: Snippet)
    ensures exists k :: InGroup(s, k)
  {
    if !HasAnyKeyword(s) {
      assert InGroup(s, Constraints);
    } else if HasKeyword(s, Constraints) {
      assert InGroup(s, Constraints);
    } else if HasKeyword(s, Require) {
      assert InGroup(s, Require);
    } else if HasKeyword(s, Message) {
      assert InGroup(s, Message);
    } else if HasKeyword(s, SetDefault) {
      assert InGroup(s, SetDefault);
    } else {
      assert InGroup(s, Rule);
    }
  }

  /** The sizes of the five sections after grouping `snips`, added up. */
  function BucketTotal(snips: seq<Snippet>): nat
  {
    |Bucket(snips, Constraints)| + |Bucket(snips, Require)| + |Bucket(snips, Message)|
    + |Bucket(snips, SetDefault)| + |Bucket(snips, Rule)|
  }

  /** Since every snippet is placed somewhere, the sections together hold at
      least as many entries as there are snippets. */
  lemma {:induction false} BucketTotalAtLeast(snips: seq<Snippet>)
    ensures BucketTotal(snips) >= |snips|
  {
    if snips != [] {
      var init, s := snips[..|snips| - 1], snips[|snips| - 1];
      assert snips == init + [s];
      BucketTotalAtLeast(init);
      FilterSnoc(init, s, t => InGroup(t, Constraints));
      FilterSnoc(init, s, t => InGroup(t, Require));
      FilterSnoc(init, s, t => InGroup(t, Message));
      FilterSnoc(init, s, t => InGroup(t, SetDefault));
      FilterSnoc(init, s, t => InGroup(t, Rule));
      EverySnippetGrouped(s);
    }
  }

  /** Grouping one more snippet places it after the ones before. */
  lemma RegroupedSnoc(g: Groups, snips: seq<Snippet>, s: Snippet)
    ensures Regrouped(g, snips + [s]) == Placed(Regrouped(g, snips), s)
  {
    FilterSnoc(snips, s, t => InGroup(t, Constraints));
    FilterSnoc(snips, s, t => InGroup(t, Require));
    FilterSnoc(snips, s, t => InGroup(t, Message));
    FilterSnoc(snips, s, t => InGroup(t, SetDefault));
    FilterSnoc(snips, s, t => InGroup(t, Rule));
  }

  /** Grouping sets every section's items to its bucket and keeps its title
      and flag. */
  lemma RegroupedGet(g: Groups, snips: seq<Snippet>, k: SectionKey)
    ensures Regrouped(g, snips).Get(k) == g.Get(k).(items := Bucket(snips, k))
  {
  }

  /** Grouping the first `j + 1` snippets places snippet `j` after the
      first `j`. */
  lemma RegroupedStep(g: Groups, snips: seq<Snippet>, j: nat)
    requires j < |snips|
    ensures Regrouped(g, snips[..j + 1]) == Placed(Regrouped(g, snips[..j]), snips[j])
  {
    assert snips[..j + 1] == snips[..j] + [snips[j]];
    RegroupedSnoc(g, snips[..j], snips[j]);
  }

  /** The result of grouping does not depend on what the sections held
      before, only on their titles and flags; so grouping again changes
      nothing. */
  lemma RegroupSpec(g: Groups, h: Groups, snips: seq<Snippet>)
    requires forall k :: g.Get(k).title == h.Get(k).title && g.Get(k).expanded == h.Get(k).expanded
    ensures Regrouped(g, snips) == Regrouped(h, snips)
    ensures Regrouped(Regrouped(g, snips), snips) == Regrouped(g, snips)
  {
    forall k ensures Regrouped(g, snips).Get(k) == Regrouped(h, snips).Get(k) {
      RegroupedGet(g, snips, k);
      RegroupedGet(h, snips, k);
    }
    GroupsExt(Regrouped(g, snips), Regrouped(h, snips));
  }

  /** Toggling flips only the chosen section's flag and never touches items
      or titles; toggling twice restores the groups. */
  lemma ToggleSpec(g: Groups, k: SectionKey)
    ensures Toggled(g, k).Get(k).expanded == !g.Get(k).expanded
    ensures forall j ::
      Toggled(g, k).Get(j).items == g.Get(j).items && Toggled(g, k).Get(j).title == g.Get(j).title
    ensures forall j :: j != k ==> Toggled(g, k).Get(j) == g.Get(j)
    ensures Toggled(Toggled(g, k), k) == g
  {
    GroupsExt(Toggled(Toggled(g, k), k), g);
  }

  /** After grouping, a section is shown as non-empty exactly when some
      snippet belongs to it. */
  lemma SectionsAfterGrouping(g: Groups, snips: seq<Snippet>, i: nat)
    requires i < 5
    ensures SectionsOf(Regrouped(g, snips))[i].hasItems <==>
      exists j :: 0 <= j < |snips| && InGroup(snips[j], KeyOrder[i])
  {
    var k := KeyOrder[i];
    RegroupedGet(g, snips, k);
    var picked := BucketSpec(snips, k);
    if exists j :: 0 <= j < |snips| && InGroup(snips[j], k) {
      var j :| 0 <= j < |snips| && InGroup(snips[j], k);
      assert j in picked;
    }
    if picked != [] {
      assert InGroup(snips[picked[0]], k) by { assert picked[0] in picked; }
    }
  }

  /** The five conditional pushes followed by the fallback push append `s`
      to exactly the sections it belongs to, once each. */
  lemma PushesPlace(g: Groups, s: Snippet)
    ensures var hc, hr, hm := HasKeyword(s, Constraints), HasKeyword(s, Require), HasKeyword(s, Message);
      var hd, hu := HasKeyword(s, SetDefault), HasKeyword(s, Rule);
      PushWhen(PushWhen(PushWhen(PushWhen(PushWhen(PushWhen(g,
        Constraints, s, hc), Require, s, hr), Message, s, hm), SetDefault, s, hd), Rule, s, hu),
        Constraints, s, !(hc || hr || hm || hd || hu))
      == Placed(g, s)
  {
    var hc, hr, hm := HasKeyword(s, Constraints), HasKeyword(s, Require), HasKeyword(s, Message);
    var hd, hu := HasKeyword(s, SetDefault), HasKeyword(s, Rule);
    var g1 := PushWhen(g, Constraints, s, hc);
    assert g1 == g.(constraints := g.constraints.(items := g.constraints.items + (if hc then [s] else [])));
    var g2 := PushWhen(g1, Require, s, hr);
    assert g2 == g1.(require := g.require.(items := g.require.items + (if hr then [s] else [])));
    var g3 := PushWhen(g2, Message, s, hm);
    assert g3 == g2.(message := g.message.(items := g.message.items + (if hm then [s] else [])));
    var g4 := PushWhen(g3, SetDefault, s, hd);
    assert g4 == g3.(setdefault := g.setdefault.(items := g.setdefault.items + (if hd then [s] else [])));
    var g5 := PushWhen(g4, Rule, s, hu);
    assert g5 == g4.(rule := g.rule.(items := g.rule.items + (if hu then [s] else [])));
  }

  /** Groups whose every section is `g`'s with its items emptied are `g`
      grouped over no snippets. */
  lemma Cleared(g: Groups, h: Groups)
    requires forall k :: k in KeyOrder[..|KeyOrder|] ==> h.Get(k) == g.Get(k).(items := [])
    ensures h == Regrouped(g, [])
  {
    KeyOrderComplete();
    assert KeyOrder[..|KeyOrder|] == KeyOrder;
    forall k ensures h.Get(k) == Regrouped(g, []).Get(k) {
      RegroupedGet(g, [], k);
    }
    GroupsExt(h, Regrouped(g, []));
  }

  // ---------------------------------------------------------------------
  // The component

  class ConstraintStudio {
    var snippets: seq<Snippet>
    var groupedSnippets: Groups

    constructor ()
      ensures snippets == [] && groupedSnippets == InitialGroups()
    {
      snippets := [];
      groupedSnippets := InitialGroups();
    }

    /** The `data` branch of the snippet wire: take the list and regroup it. */
    method LoadSnippets(data: seq<Snippet>)
      modifies this
      ensures snippets == data
      ensures groupedSnippets == Regrouped(old(groupedSnippets), data)
    {
      snippets := data;
      GroupSnippets();
    }

    /** Appends `s` to the items of section `k`. */
    method Push(k: SectionKey, s: Snippet)
      modifies this`groupedSnippets
      ensures groupedSnippets == PushWhen(old(groupedSnippets), k, s, true)
    {
      groupedSnippets := WithItems(groupedSnippets, k, groupedSnippets.Get(k).items + [s]);
    }

    /** One keyword test of the `forEach` body: push `s` onto section `k`
        when its lowered CML contains `k`'s keyword, and report whether it did. */
    method PushIfMentioned(k: SectionKey, s: Snippet) returns (hit: bool)
      modifies this`groupedSnippets
      ensures hit == HasKeyword(s, k)
      ensures groupedSnippets == PushWhen(old(groupedSnippets), k, s, hit)
    {
      hit := false;
      if Contains(LoweredCml(s), Keyword(k)) {
        Push(k, s);
        hit := true;
      }
    }

    /** The body of the `forEach`: push `s` onto every section whose keyword
        its CML contains, or onto `Constraints` when it contains none. */
    method Place(s: Snippet)
      modifies this`groupedSnippets
      ensures groupedSnippets == Placed(old(groupedSnippets), s)
    {
      var hc := PushIfMentioned(Constraints, s);
      var hr := PushIfMentioned(Require, s);
      var hm := PushIfMentioned(Message, s);
      var hd := PushIfMentioned(SetDefault, s);
      var hu := PushIfMentioned(Rule, s);
      var grouped := hc || hr || hm || hd || hu;
      if !grouped {
        Push(Constraints, s);
      }
      PushesPlace(old(groupedSnippets), s);
    }

    /** `groupSnippets`: empty every section, then place the snippets in order. */
    method GroupSnippets()
      modifies this`groupedSnippets
      ensures groupedSnippets == Regrouped(old(groupedSnippets), snippets)
    {
      for i := 0 to |KeyOrder|
        invariant forall k :: k !in KeyOrder[..i] ==> groupedSnippets.Get(k) == old(groupedSnippets).Get(k)
        invariant forall k :: k in KeyOrder[..i] ==>
          groupedSnippets.Get(k) == old(groupedSnippets).Get(k).(items := [])
      {
        var key := KeyOrder[i];
        assert KeyOrder[..i + 1] == KeyOrder[..i] + [key];
        groupedSnippets := WithItems(groupedSnippets, key, []);
      }
      Cleared(old(groupedSnippets), groupedSnippets);
      for j := 0 to |snippets|
        invariant groupedSnippets == Regrouped(old(groupedSnippets), snippets[..j])
      {
        RegroupedStep(old(groupedSnippets), snippets, j);
        Place(snippets[j]);
      }
      assert snippets[..|snippets|] == snippets;
    }

    /** `handleToggleSection`. */
    method HandleToggleSection(k: SectionKey)
      modifies this`groupedSnippets
      ensures groupedSnippets == Toggled(old(groupedSnippets), k)
    {
      var grp := groupedSnippets.Get(k);
      groupedSnippets := groupedSnippets.Set(k, grp.(expanded := !grp.expanded));
    }

    /** The `sections` getter. */
    function Sections(): (r: seq<Section>)
      reads this
      ensures |r| == 5
      ensures forall i :: 0 <= i < 5 ==>
        r[i].key == KeyOrder[i] && r[i].title == groupedSnippets.Get(KeyOrder[i]).title
        && r[i].items == groupedSnippets.Get(KeyOrder[i]).items
        && r[i].expanded == groupedSnippets.Get(KeyOrder[i]).expanded
        && (r[i].hasItems <==> r[i].items != [])
    {
      SectionsOf(groupedSnippets)
    }
  }
}
