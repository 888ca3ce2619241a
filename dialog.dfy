/**
 * `AbstractCustomDialogPreference.displayDialog`: the display request is
 * offered to a fixed chain of `OnPreferenceDisplayDialogCallback`s, stopping at
 * the first that handles it; if none does, the preference's dialog is shown
 * under the preference fragment's dialog tag unless one is already there.
 */
module Dialog {
  import opened Framework

  /** The fragment tag of a preference dialog. */
  const Tag := "androidx.preference.PreferenceFragment.DIALOG"

  /** A party in the chain: not a callback (or null), or a callback that answers `handles`. */
  datatype Handler = NotACallback | Callback(handles: bool)

  /** Which party a consultation went to. */
  datatype Site = CallbackFragment | Ancestor(level: nat) | ContextSite | ActivitySite

  datatype Entry = Entry(site: Site, handler: Handler)

  /**
   * What `displayDialog` sees: the fragment's `callbackFragment`, the fragment
   * and its ancestors going upward (`chain[0]` is the fragment itself), its
   * context and its activity.
   */
  datatype Request = Request(callbackFragment: Handler, chain: seq<Handler>, context: Handler, activity: Handler)

  /** The parties in the order they are offered the request. */
  function Sites(req: Request): (s: seq<Entry>)
    ensures |s| == |req.chain| + 3
    ensures s[0] == Entry(CallbackFragment, req.callbackFragment)
    ensures forall i :: 0 <= i < |req.chain| ==> s[1 + i] == Entry(Ancestor(i), req.chain[i])
    ensures s[|req.chain| + 1] == Entry(ContextSite, req.context)
    ensures s[|req.chain| + 2] == Entry(ActivitySite, req.activity)
  {
    [Entry(CallbackFragment, req.callbackFragment)]
    + seq(|req.chain|, i requires 0 <= i < |req.chain| => Entry(Ancestor(i), req.chain[i]))
    + [Entry(ContextSite, req.context), Entry(ActivitySite, req.activity)]
  }

  /** Whether some callback among `s` handles the request. */
  predicate AnyHandles(s: seq<Entry>) {
    |s| > 0 && (AnyHandles(s[..|s| - 1]) || s[|s| - 1].handler == Callback(true))
  }

  /** `AnyHandles` holds exactly when some entry is a callback that handles the request. */
  lemma {:induction false} AnyHandlesMeans(s: seq<Entry>)
    ensures AnyHandles(s) <==> exists i :: 0 <= i < |s| && s[i].handler == Callback(true)
    decreases |s|
  {
    if |s| > 0 {
      var init := s[..|s| - 1];
      AnyHandlesMeans(init);
      if AnyHandles(init) {
        var i :| 0 <= i < |init| && init[i].handler == Callback(true);
        assert s[i] == init[i];
      }
      if exists i :: 0 <= i < |s| && s[i].handler == Callback(true) {
        var i :| 0 <= i < |s| && s[i].handler == Callback(true);
        if i < |init| {
          assert init[i] == s[i];
        }
      }
    }
  }

  /** The consultations over `s`: each callback in turn, until one has handled the request. */
  function Consultations(s: seq<Entry>): seq<Site> {
    if |s| == 0 then []
    else
      var init := s[..|s| - 1];
      var last := s[|s| - 1];
      if AnyHandles(init) then Consultations(init)
      else Consultations(init) + (if last.handler.Callback? then [last.site] else [])
  }

  predicate DistinctSites(s: seq<Entry>) {
    forall i, j :: 0 <= i < j < |s| ==> s[i].site != s[j].site
  }

  /** Every consulted party is one of the entries. */
  lemma {:induction false} ConsultedAreSites(s: seq<Entry>, x: Site)
    requires x in Consultations(s)
    ensures exists i :: 0 <= i < |s| && s[i].site == x
    decreases |s|
  {
    var init := s[..|s| - 1];
    if x in Consultations(init) {
      ConsultedAreSites(init, x);
      var i :| 0 <= i < |init| && init[i].site == x;
      assert s[i].site == x;
    } else {
      assert s[|s| - 1].site == x;
    }
  }

  /** A party is consulted exactly when it is a callback and no party before it has handled the request. */
  lemma {:induction false} ConsultedIff(s: seq<Entry>, i: int)
    requires DistinctSites(s) && 0 <= i < |s|
    ensures s[i].site in Consultations(s) <==> s[i].handler.Callback? && !AnyHandles(s[..i])
    decreases |s|
  {
    var init := s[..|s| - 1];
    assert DistinctSites(init);
    if i < |s| - 1 {
      ConsultedIff(init, i);
      assert init[..i] == s[..i];
      if !AnyHandles(init) && s[|s| - 1].handler.Callback? {
        assert s[|s| - 1].site != s[i].site;
      }
    } else {
      assert init == s[..i];
      if s[i].site in Consultations(init) {
        ConsultedAreSites(init, s[i].site);
      }
    }
  }

  /** Once a prefix has handled the request, nothing after it is consulted. */
  lemma {:induction false} StopsAtFirst(a: seq<Entry>, b: seq<Entry>)
    requires AnyHandles(a)
    ensures Consultations(a + b) == Consultations(a) && AnyHandles(a + b)
    decreases |b|
  {
    if |b| > 0 {
      var init := b[..|b| - 1];
      StopsAtFirst(a, init);
      assert (a + b)[..|a + b| - 1] == a + init;
    } else {
      assert a + b == a;
    }
  }

  lemma {:induction false} AnyHandlesSnoc(a: seq<Entry>, e: Entry)
    ensures AnyHandles(a + [e]) <==> AnyHandles(a) || e.handler == Callback(true)
  {
    assert (a + [e])[..|a|] == a;
  }

  lemma {:induction false} ConsultationsSnoc(a: seq<Entry>, e: Entry)
    ensures Consultations(a + [e]) ==
              if AnyHandles(a) then Consultations(a)
              else Consultations(a) + (if e.handler.Callback? then [e.site] else [])
  {
    assert (a + [e])[..|a|] == a;
  }

  /** One more party: the step the dispatch loop takes. */
  lemma {:induction false} StepPrefix(s: seq<Entry>, k: int)
    requires 0 <= k < |s|
    ensures Consultations(s[..k + 1]) ==
              if AnyHandles(s[..k]) then Consultations(s[..k])
              else Consultations(s[..k]) + (if s[k].handler.Callback? then [s[k].site] else [])
    ensures AnyHandles(s[..k + 1]) <==> AnyHandles(s[..k]) || s[k].handler == Callback(true)
  {
    assert s[..k + 1] == s[..k] + [s[k]];
    ConsultationsSnoc(s[..k], s[k]);
    AnyHandlesSnoc(s[..k], s[k]);
  }

  /** A dialog shown under a tag: its arguments. */
  datatype ShownDialog = ShownDialog(arguments: map<string, string>)

  /** The parent fragment manager: the fragments it holds by tag, and how many dialogs were shown. */
  class FragmentManager {
    var byTag: map<string, ShownDialog>
    var shown: nat

    constructor (byTag: map<string, ShownDialog>)
      ensures this.byTag == byTag && shown == 0
    {
      this.byTag := byTag;
      shown := 0;
    }

    /** `DialogFragment.show(manager, tag)`, taken as committed at once. */
    method Show(d: ShownDialog, tag: string)
      modifies this
      ensures byTag == old(byTag)[tag := d] && shown == old(shown) + 1
    {
      byTag := byTag[tag := d];
      shown := shown + 1;
    }
  }

  /** The arguments of the shown dialog: a copy of what `createDialog` put there (or none), plus "key". */
  function ShownArguments(created: Option<map<string, string>>, key: string): (r: map<string, string>)
    ensures "key" in r && r["key"] == key
    ensures forall k :: k != "key" ==> (k in r <==> created.Some? && k in created.value)
    ensures forall k :: k != "key" && k in r ==> r[k] == created.value[k]
  {
    created.GetOr(map[])["key" := key]
  }

  /**
   * `displayDialog`. `created` stands for the arguments of the fragment
   * `createDialog` returns. The result says whether a callback handled the
   * request and which parties were consulted, in order.
   */
  method DisplayDialog(req: Request, manager: FragmentManager, key: string, created: Option<map<string, string>>)
    returns (handled: bool, consulted: seq<Site>)
    modifies manager
    ensures consulted == Consultations(Sites(req)) && handled == AnyHandles(Sites(req))
    ensures handled || Tag in old(manager.byTag) ==> unchanged(manager)
    ensures !handled && Tag !in old(manager.byTag) ==>
              && manager.byTag == old(manager.byTag)[Tag := ShownDialog(ShownArguments(created, key))]
              && manager.shown == old(manager.shown) + 1
  {
    handled, consulted := Consult(req);
    if handled {
      return;
    }
    if Tag in manager.byTag {
      return;
    }
    manager.Show(ShownDialog(ShownArguments(created, key)), Tag);
  }

  /** One more party after a prefix that has not handled the request: the step the dispatch loop takes. */
  lemma {:induction false} Advance(s: seq<Entry>, k: int)
    requires 0 <= k < |s| && !AnyHandles(s[..k])
    ensures Consultations(s[..k + 1]) == Consultations(s[..k]) + (if s[k].handler.Callback? then [s[k].site] else [])
    ensures AnyHandles(s[..k + 1]) == (s[k].handler == Callback(true))
  {
    StepPrefix(s, k);
  }

  /** A prefix that has handled the request decides the whole dispatch. */
  lemma {:induction false} HandledPrefix(s: seq<Entry>, k: int)
    requires 0 <= k <= |s| && AnyHandles(s[..k])
    ensures Consultations(s) == Consultations(s[..k]) && AnyHandles(s)
  {
    StopsAtFirst(s[..k], s[k..]);
    assert s[..k] + s[k..] == s;
  }

  /** The dispatch part of `displayDialog`: the callback fragment, the fragment chain, the context, the activity. */
  method Consult(req: Request) returns (handled: bool, consulted: seq<Site>)
    ensures consulted == Consultations(Sites(req)) && handled == AnyHandles(Sites(req))
  {
    ghost var sites := Sites(req);
    var n := |req.chain|;
    handled, consulted := ConsultFragments(req);
    if handled {
      HandledPrefix(sites, n + 1);
      return;
    }
    Advance(sites, n + 1);
    assert sites[n + 1] == Entry(ContextSite, req.context);
    if req.context.Callback? {
      consulted := consulted + [ContextSite];
      handled := req.context.handles;
    }
    if handled {
      HandledPrefix(sites, n + 2);
      return;
    }
    Advance(sites, n + 2);
    assert sites[n + 2] == Entry(ActivitySite, req.activity);
    if req.activity.Callback? {
      consulted := consulted + [ActivitySite];
      handled := req.activity.handles;
    }
    assert sites[..n + 3] == sites;
  }

  /** The first part of the dispatch: the callback fragment, then the fragment and its ancestors going upward. */
  method ConsultFragments(req: Request) returns (handled: bool, consulted: seq<Site>)
    ensures var sites := Sites(req);
            consulted == Consultations(sites[..|req.chain| + 1]) && handled == AnyHandles(sites[..|req.chain| + 1])
  {
    FirstStep(req);
    handled := false;
    consulted := [];
    if req.callbackFragment.Callback? {
      consulted := [CallbackFragment];
      handled := req.callbackFragment.handles;
    }
    var i := 0;
    while !handled && i < |req.chain|
      invariant 0 <= i <= |req.chain|
      invariant consulted == Consultations(Sites(req)[..1 + i]) && handled == AnyHandles(Sites(req)[..1 + i])
    {
      ChainStep(req, i);
      if req.chain[i].Callback? {
        consulted := consulted + [Ancestor(i)];
        handled := req.chain[i].handles;
      }
      i := i + 1;
    }
    if handled {
      ChainStops(req, i);
    }
  }

  /** The callback fragment is consulted first, when it is a callback. */
  lemma {:induction false} FirstStep(req: Request)
    ensures var sites := Sites(req);
            && Consultations(sites[..1]) == (if req.callbackFragment.Callback? then [CallbackFragment] else [])
            && AnyHandles(sites[..1]) == (req.callbackFragment == Callback(true))
  {
    var sites := Sites(req);
    assert sites[..0] == [];
    Advance(sites, 0);
  }

  /** A handled prefix of the fragment chain decides the chain's dispatch. */
  lemma {:induction false} ChainStops(req: Request, i: int)
    requires 0 <= i <= |req.chain| && AnyHandles(Sites(req)[..1 + i])
    ensures var sites := Sites(req);
            && Consultations(sites[..|req.chain| + 1]) == Consultations(sites[..1 + i])
            && AnyHandles(sites[..|req.chain| + 1])
  {
    var sites := Sites(req);
    var n := |req.chain|;
    assert sites[..n + 1][..1 + i] == sites[..1 + i];
    HandledPrefix(sites[..n + 1], 1 + i);
  }

  /** The loop's step: ancestor `i` is consulted when it is a callback. */
  lemma {:induction false} ChainStep(req: Request, i: int)
    requires 0 <= i < |req.chain| && !AnyHandles(Sites(req)[..1 + i])
    ensures req.chain[i].Callback? ==> Consultations(Sites(req)[..2 + i]) == Consultations(Sites(req)[..1 + i]) + [Ancestor(i)]
    ensures req.chain[i].NotACallback? ==> Consultations(Sites(req)[..2 + i]) == Consultations(Sites(req)[..1 + i])
    ensures AnyHandles(Sites(req)[..2 + i]) == (req.chain[i] == Callback(true))
  {
    Advance(Sites(req), 1 + i);
  }

  /** The callback fragment, when a callback, is the first party consulted. */
  lemma {:induction false} CallbackFragmentFirst(req: Request)
    requires req.callbackFragment.Callback?
    ensures |Consultations(Sites(req))| >= 1 && Consultations(Sites(req))[0] == CallbackFragment
  {
    var s := Sites(req);
    StopsAtFirstOrExtends(s[..1], s[1..]);
    assert s[..1] + s[1..] == s;
    ConsultationsSnoc([], s[0]);
    assert [] + [s[0]] == s[..1];
  }

  /** Consultations over a longer list extend those over its prefix. */
  lemma {:induction false} StopsAtFirstOrExtends(a: seq<Entry>, b: seq<Entry>)
    ensures Consultations(a) <= Consultations(a + b)
    decreases |b|
  {
    if |b| == 0 {
      assert a + b == a;
    } else {
      var init := b[..|b| - 1];
      StopsAtFirstOrExtends(a, init);
      assert (a + b)[..|a + b| - 1] == a + init;
    }
  }

  /** The sites of a request are all different, so `ConsultedIff` applies to them. */
  lemma {:induction false} SitesDistinct(req: Request)
    ensures DistinctSites(Sites(req))
  {
    var s := Sites(req);
    var n := |req.chain|;
    forall i, j | 0 <= i < j < |s|
      ensures s[i].site != s[j].site
    {
      if 1 <= i && j <= n {
        assert s[i].site == Ancestor(i - 1) && s[j].site == Ancestor(j - 1);
      }
    }
  }

  /** Showing is guarded by the tag: a second display request shows no second dialog. */
  method DisplayTwice(req: Request, manager: FragmentManager, key: string, created: Option<map<string, string>>)
    modifies manager
    ensures manager.shown <= old(manager.shown) + 1
    ensures Tag in old(manager.byTag) ==> unchanged(manager)
  {
    var h1, c1 := DisplayDialog(req, manager, key, created);
    var h2, c2 := DisplayDialog(req, manager, key, created);
  }
}
