/** Live selector choices: what a loaded configuration starts with, and when a live selection leaves
    the running choices in agreement with the committed configuration. */
module Selections {
  import opened Wrappers
  import opened Text
  import opened Sequences
  import opened RuntimeModel
  import opened Validation
  import opened Canonicity
  import opened Planner
  import opened Closure
  import opened Meaning
  import opened RuntimeConfig
  import opened Commitments
  import opened Edits
  import opened Effects

  /** The choice of every selector right after loading: its default. */
  function Defaults(outbounds: seq<Outbound>): map<string, string> {
    if outbounds == [] then map[]
    else
      var rest := Defaults(outbounds[1..]);
      match outbounds[0].options
      case SelectorOptions(_, default) => rest[outbounds[0].tag := default]
      case _ => rest
  }

  /** The running configuration has a selector `group` with `id` among its members. */
  predicate Offers(outbounds: seq<Outbound>, group: string, id: string) {
    exists i :: 0 <= i < |outbounds| &&
      outbounds[i].tag == group && outbounds[i].options.SelectorOptions? && id in outbounds[i].options.members
  }

  /** Every committed selection is the running choice. */
  ghost predicate Agrees(live: map<string, string>, selectors: seq<Selector>) {
    forall s :: s in selectors ==> s.tag in live && live[s.tag] == s.selected
  }

  /** The same, for the selectors that `on` picks out. */
  ghost predicate AgreesOn(on: string -> bool, live: map<string, string>, selectors: seq<Selector>) {
    forall s :: s in selectors && on(s.tag) ==> s.tag in live && live[s.tag] == s.selected
  }

  function Everything(): string -> bool { (tag: string) => true }

  lemma {:induction false} DefaultsAt(outbounds: seq<Outbound>, o: Outbound)
    requires NoDup(Map(TagOfOutbound, outbounds)) && o in outbounds && o.options.SelectorOptions?
    ensures o.tag in Defaults(outbounds) && Defaults(outbounds)[o.tag] == o.options.default
  {
    var tags := Map(TagOfOutbound, outbounds);
    NoDupCons(tags);
    assert tags[1..] == Map(TagOfOutbound, outbounds[1..]);
    if outbounds[0] != o {
      assert o in outbounds[1..];
      MapIn(TagOfOutbound, outbounds[1..], o);
      DefaultsAt(outbounds[1..], o);
    }
  }

  lemma {:induction false} DefaultsOffered(outbounds: seq<Outbound>, tag: string)
    requires forall o :: o in outbounds ==> RefersTo(outbounds, o)
    requires tag in Defaults(outbounds)
    ensures Offers(outbounds, tag, Defaults(outbounds)[tag])
  {
    var o := DefaultOrigin(outbounds, tag);
    assert RefersTo(outbounds, o);
    var i :| 0 <= i < |outbounds| && outbounds[i] == o;
  }

  lemma {:induction false} DefaultOrigin(outbounds: seq<Outbound>, tag: string) returns (o: Outbound)
    requires tag in Defaults(outbounds)
    ensures o in outbounds && o.tag == tag && o.options.SelectorOptions? && o.options.default == Defaults(outbounds)[tag]
  {
    if outbounds[0].options.SelectorOptions? && outbounds[0].tag == tag {
      o := outbounds[0];
    } else {
      o := DefaultOrigin(outbounds[1..], tag);
    }
  }

  /** The outbound emitted for a selector of a normalised model defaults to its selection. */
  lemma SelectorDefault(m: RuntimeModel, s: Selector) returns (o: Outbound)
    requires Normalized(m) && StableIds(m.nodes) && s in m.selectors
    ensures o in PlannedOutbounds(m.nodes, m.selectors)
    ensures o.tag == s.tag && o.options.SelectorOptions? && o.options.default == s.selected
  {
    StableTags(m.nodes);
    if IsService(s) {
      SelectorEmitted(m.nodes, m.selectors, s);
      o := ServiceOutbound(m, s);
    } else if NodeTags(m.nodes) == [] {
      NoNodesDirect(m, s);
      SelectorEmitted(m.nodes, m.selectors, s);
      o := EmitDirectSelector(s);
    } else {
      o := ProxyDefaultOutbound(m, s);
    }
  }

  lemma ProxyDefaultOutbound(m: RuntimeModel, s: Selector) returns (o: Outbound)
    requires NoDup(Map(TagOf, m.selectors)) && NodeTags(m.nodes) == AvailableIds(m.nodes) && NodeTags(m.nodes) != []
    requires s in m.selectors && s.tag == PROXY
    ensures o in PlannedOutbounds(m.nodes, m.selectors)
    ensures o.tag == s.tag && o.options.SelectorOptions? && o.options.default == s.selected
  {
    GroupsEmitted(m.nodes, m.selectors);
    ProxyDefaultMeans(m, NodeTags(m.nodes), s.selected);
    o := ProxyGroup(NodeTags(m.nodes), m.selectors);
  }

  /** Freshly loaded content agrees with the configuration it was built from, and every running
      choice is one its selector offers. */
  lemma ContentAgrees(env: Platform, cfg: RuntimeConfig, nodes: seq<Node>)
    requires Builds(env, cfg, nodes) && HexPool(nodes)
    ensures var out := Content(env, cfg, nodes).outbounds;
            && Agrees(Defaults(out), Committed(cfg, nodes).selectors)
            && forall tag :: tag in Defaults(out) ==> Offers(out, tag, Defaults(out)[tag])
  {
    var m := Canonical(Desired(cfg, nodes));
    HexPoolOk(nodes);
    NormalizingTwice(Desired(cfg, nodes));
    OutboundsAreClosed(m, false);
    var out := PlannedOutbounds(m.nodes, m.selectors);
    assert out == Content(env, cfg, nodes).outbounds;
    forall s | s in m.selectors ensures s.tag in Defaults(out) && Defaults(out)[s.tag] == s.selected {
      var o := SelectorDefault(m, s);
      DefaultsAt(out, o);
    }
    forall tag | tag in Defaults(out) ensures Offers(out, tag, Defaults(out)[tag]) {
      DefaultsOffered(out, tag);
    }
  }

  /******* One live selection *******/

  /** `selectors` with the selection of `tag` set to `id`. */
  ghost predicate SelectsNode(before: seq<Selector>, edited: seq<Selector>, tag: string, id: string) {
    && (exists s :: s in edited && s.tag == tag && s.selected == id)
    && (forall s :: s in edited && s.tag != tag ==> s in before)
    && (forall s :: s in before && s.tag != tag ==> s in edited)
  }

  /** Every selection other than that of `tag` is still possible with `nodes`. */
  ghost predicate OthersSelectable(selectors: seq<Selector>, tag: string, nodes: seq<Node>) {
    forall s :: s in selectors && s.tag != tag ==> Selectable(nodes, s.selected)
  }

  ghost predicate OthersSelectableOn(on: string -> bool, selectors: seq<Selector>, tag: string, nodes: seq<Node>) {
    forall s :: s in selectors && on(s.tag) && s.tag != tag ==> Selectable(nodes, s.selected)
  }

  lemma CommittedOrigin(cfg: RuntimeConfig, nodes: seq<Node>, t: Selector) returns (s: Selector)
    requires HasProxy(cfg.selectors) && t in Committed(cfg, nodes).selectors
    ensures s in cfg.selectors && t == CanonSelector(nodes, ReconcileSelector(nodes, s))
  {
    var reconciled := Reconciled(cfg.selectors, nodes);
    CanonSelectorsElements(nodes, reconciled, t);
    var u :| u in reconciled && t == CanonSelector(nodes, u);
    s := MapOrigin(ReconcileIn(nodes), WithProxy(cfg.selectors, nodes), u);
  }

  lemma StillSelected(on: string -> bool, live: map<string, string>, before: seq<Selector>, edited: RuntimeConfig, tag: string,
                      id: string, nodes: seq<Node>, t: Selector)
    requires AgreesOn(on, live, before) && SelectsNode(before, edited.selectors, tag, id) && Selectable(nodes, id)
    requires HasProxy(edited.selectors) && NoDup(Map(TagOf, edited.selectors))
    requires OthersSelectableOn(on, before, tag, nodes) && t in Committed(edited, nodes).selectors && on(t.tag)
    ensures t.tag in live[tag := id] && live[tag := id][t.tag] == t.selected
  {
    var s := CommittedOrigin(edited, nodes, t);
    CommittedFields(nodes, s);
    if s.tag == tag {
      var chosen :| chosen in edited.selectors && chosen.tag == tag && chosen.selected == id;
      DistinctKeys(TagOf, edited.selectors);
      assert TagOf(s) == TagOf(chosen);
    }
  }

  lemma LostSelection(on: string -> bool, live: map<string, string>, before: seq<Selector>, edited: RuntimeConfig, tag: string,
                      id: string, nodes: seq<Node>, s: Selector)
    requires AgreesOn(on, live, before) && SelectsNode(before, edited.selectors, tag, id)
    requires AgreesOn(on, live[tag := id], Committed(edited, nodes).selectors)
    requires s in before && s.tag != tag && on(s.tag)
    ensures Selectable(nodes, s.selected)
  {
    CommittedSelection(edited, nodes, s);
    var t :| t in Committed(edited, nodes).selectors && t.tag == s.tag
             && t.selected == if Selectable(nodes, s.selected) then s.selected else DIRECT;
    assert live[s.tag] == s.selected && live[tag := id][t.tag] == t.selected;
  }

  lemma NoneLost(on: string -> bool, live: map<string, string>, cfg: RuntimeConfig, edited: RuntimeConfig, tag: string,
                 id: string, nodes: seq<Node>)
    requires AgreesOn(on, live, cfg.selectors) && SelectsNode(cfg.selectors, edited.selectors, tag, id)
    requires AgreesOn(on, live[tag := id], Committed(edited, nodes).selectors)
    ensures OthersSelectableOn(on, cfg.selectors, tag, nodes)
  {
    forall s | s in cfg.selectors && on(s.tag) && s.tag != tag ensures Selectable(nodes, s.selected) {
      LostSelection(on, live, cfg.selectors, edited, tag, id, nodes, s);
    }
  }

  lemma AllKept(on: string -> bool, live: map<string, string>, cfg: RuntimeConfig, edited: RuntimeConfig, tag: string,
                id: string, nodes: seq<Node>)
    requires AgreesOn(on, live, cfg.selectors) && SelectsNode(cfg.selectors, edited.selectors, tag, id)
    requires Selectable(nodes, id) && HasProxy(edited.selectors) && NoDup(Map(TagOf, edited.selectors))
    requires OthersSelectableOn(on, cfg.selectors, tag, nodes)
    ensures AgreesOn(on, live[tag := id], Committed(edited, nodes).selectors)
  {
    forall t | t in Committed(edited, nodes).selectors && on(t.tag)
      ensures t.tag in live[tag := id] && live[tag := id][t.tag] == t.selected
    {
      StillSelected(on, live, cfg.selectors, edited, tag, id, nodes, t);
    }
  }

  /** Before the call the running choices agree, for some of the selectors; after choosing `id` for
      `tag` they agree for those with the newly committed configuration exactly when no other selection
      among them was lost with the pool. */
  lemma LiveSelectionOn(on: string -> bool, live: map<string, string>, cfg: RuntimeConfig, edited: RuntimeConfig, tag: string,
                        id: string, nodes: seq<Node>)
    requires AgreesOn(on, live, cfg.selectors)
    requires SelectsNode(cfg.selectors, edited.selectors, tag, id) && Selectable(nodes, id)
    requires HasProxy(edited.selectors) && NoDup(Map(TagOf, edited.selectors))
    ensures AgreesOn(on, live[tag := id], Committed(edited, nodes).selectors) <==> OthersSelectableOn(on, cfg.selectors, tag, nodes)
  {
    if OthersSelectableOn(on, cfg.selectors, tag, nodes) {
      AllKept(on, live, cfg, edited, tag, id, nodes);
    }
    if AgreesOn(on, live[tag := id], Committed(edited, nodes).selectors) {
      NoneLost(on, live, cfg, edited, tag, id, nodes);
    }
  }

  /** The same for all selectors. */
  lemma LiveSelection(live: map<string, string>, cfg: RuntimeConfig, edited: RuntimeConfig, tag: string, id: string, nodes: seq<Node>)
    requires Agrees(live, cfg.selectors)
    requires SelectsNode(cfg.selectors, edited.selectors, tag, id) && Selectable(nodes, id)
    requires HasProxy(edited.selectors) && NoDup(Map(TagOf, edited.selectors))
    ensures Agrees(live[tag := id], Committed(edited, nodes).selectors) <==> OthersSelectable(cfg.selectors, tag, nodes)
  {
    OnEverything(live, cfg.selectors);
    LiveSelectionOn(Everything(), live, cfg, edited, tag, id, nodes);
    OnEverything(live[tag := id], Committed(edited, nodes).selectors);
  }

  lemma OnEverything(live: map<string, string>, selectors: seq<Selector>)
    ensures AgreesOn(Everything(), live, selectors) <==> Agrees(live, selectors)
  {
  }

  /** The edits made by node selection have the shape `LiveSelection` needs. */
  lemma SetSelectedSelects(selectors: seq<Selector>, tag: string, id: string, now: int)
    requires NoDup(Map(TagOf, selectors)) && tag in Map(TagOf, selectors)
    ensures var edited := SetSelected(selectors, tag, id, now);
            SelectsNode(selectors, edited, tag, id) && Map(TagOf, edited) == Map(TagOf, selectors)
  {
    SelectorFound(selectors, tag);
    var i := FindSelector(selectors, tag);
    var edited := SetSelected(selectors, tag, id, now);
    UpdateKeys(TagOf, selectors, i, selectors[i].(selected := id, selectedAt := now));
    assert edited[i] in edited;
    forall s | s in selectors && s.tag != tag ensures s in edited {
      var k :| 0 <= k < |selectors| && selectors[k] == s;
      assert edited[k] == s;
    }
  }
}
