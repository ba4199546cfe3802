/** The delegate and data-source forwarding proxies: an ordered list of
    responders whose first entry is the collection view and whose optional
    second entry is the host object, plus the rule that picks which of them
    receives a message. */
module Proxies {
  import opened Wrappers

  /** The messages the proxies route specially; every other message is known
      by its name only. */
  datatype Selector =
    | ScrollViewDidScroll
    | ScrollViewWillEndDragging
    | DidUpdateFocus
    | IndexPathForPreferredFocusedView
    | NumberOfSections
    | NumberOfItemsInSection
    | CellForItem
    | Other(name: string)

  /** What an object answers when asked for counts as a data source:
      numberOfSections(in:) (consulted only when implemented) and
      collectionView(_:numberOfItemsInSection:) for any section. */
  datatype CountAnswers = CountAnswers(sections: int, itemsIn: int -> int)

  /** An entry of a responder list: the collection view itself or a host
      object, with the messages it implements and its count answers. */
  datatype Responder = Responder(name: string, isCollectionView: bool, selectors: set<Selector>, answers: CountAnswers)

  datatype ProxyKind = DelegateProxy | DataSourceProxy

  /** The messages a proxy keeps for the collection view: the scroll, drag
      and focus callbacks on the delegate proxy, the two counts on the
      data-source proxy. */
  predicate Reserved(kind: ProxyKind, sel: Selector) {
    match kind
    case DelegateProxy =>
      sel == ScrollViewDidScroll || sel == ScrollViewWillEndDragging ||
      sel == DidUpdateFocus || sel == IndexPathForPreferredFocusedView
    case DataSourceProxy =>
      sel == NumberOfSections || sel == NumberOfItemsInSection
  }

  /** The collectionView getter: the first entry when it is the collection view. */
  function CollectionViewOf(list: seq<Responder>): Option<Responder> {
    if |list| > 0 && list[0].isCollectionView then Some(list[0]) else None
  }

  /** The delegate getter: the last entry once there are at least two. */
  function DelegateOf(list: seq<Responder>): Option<Responder> {
    if |list| > 1 then Some(list[|list| - 1]) else None
  }

  /** The list after the collectionView setter: the first entry, if any, is
      replaced by `cv`, which is inserted into an empty list. */
  function ReplaceCollectionView(list: seq<Responder>, cv: Responder): seq<Responder> {
    [cv] + if |list| > 0 then list[1..] else []
  }

  /** The list after the delegate setter: everything after the first entry is
      dropped and the new host, if any, appended. */
  function ReplaceDelegate(list: seq<Responder>, d: Option<Responder>): seq<Responder> {
    list[..if |list| > 1 then 1 else |list|] + if d.Some? then [d.value] else []
  }

  /** Setting the collection view makes the getter return it and keeps every
      later entry, so the delegate stays as it was on a non-empty list. */
  lemma SetCollectionViewKeepsDelegate(list: seq<Responder>, cv: Responder)
    requires cv.isCollectionView
    ensures var l := ReplaceCollectionView(list, cv);
      CollectionViewOf(l) == Some(cv) &&
      (|list| > 0 ==> |l| == |list| && l[1..] == list[1..] && DelegateOf(l) == DelegateOf(list))
  {
    var l := ReplaceCollectionView(list, cv);
    if |list| > 1 {
      assert l[|l| - 1] == list[|list| - 1];
    }
  }

  /** Setting the delegate on a list holding the collection view leaves one
      or two entries, keeps the first, and the getter then returns the value
      set. */
  lemma SetDelegateThenGet(list: seq<Responder>, d: Option<Responder>)
    requires |list| >= 1
    ensures var l := ReplaceDelegate(list, d);
      l[0] == list[0] && |l| == (if d.Some? then 2 else 1) &&
      DelegateOf(l) == d && CollectionViewOf(l) == CollectionViewOf(list)
  {
  }

  /** CocoaProxy's proxies(for:), which the model assumes: the entries that
      implement `sel`, in list order. */
  function Implementing(list: seq<Responder>, sel: Selector): (r: seq<Responder>)
    ensures |r| <= |list|
    ensures forall x :: x in r <==> x in list && sel in x.selectors
  {
    if |list| == 0 then []
    else if sel in list[0].selectors then [list[0]] + Implementing(list[1..], sel)
    else Implementing(list[1..], sel)
  }

  function Reverse(s: seq<Responder>): (r: seq<Responder>)
    ensures |r| == |s|
    ensures forall i :: 0 <= i < |s| ==> r[i] == s[|s| - 1 - i]
  {
    if |s| == 0 then [] else Reverse(s[1..]) + [s[0]]
  }

  /** The base dispatch of InfiniteCollectionViewProxy: the implementing
      entries last to first, so the host comes before the collection view. */
  function ProxiesFor(list: seq<Responder>, sel: Selector): (r: seq<Responder>)
    ensures forall x :: x in r <==> x in list && sel in x.selectors
  {
    var forward := Implementing(list, sel);
    var r := Reverse(forward);
    assert forall x :: x in r <==> x in forward by {
      forall x | x in forward ensures x in r {
        var i :| 0 <= i < |forward| && forward[i] == x;
        assert r[|forward| - 1 - i] == x;
      }
    }
    r
  }

  /** May `x` receive `sel` from a proxy of the given kind? */
  predicate Allowed(kind: ProxyKind, sel: Selector, x: Responder) {
    !Reserved(kind, sel) || x.isCollectionView
  }

  /** The index of the first entry of `s` allowed to receive `sel`. */
  function FirstAllowed(kind: ProxyKind, sel: Selector, s: seq<Responder>): (r: Option<nat>)
    ensures r.Some? ==> r.value < |s| && Allowed(kind, sel, s[r.value])
    ensures r.Some? ==> forall j :: 0 <= j < r.value ==> !Allowed(kind, sel, s[j])
    ensures r.None? ==> forall j :: 0 <= j < |s| ==> !Allowed(kind, sel, s[j])
  {
    if |s| == 0 then None
    else if Allowed(kind, sel, s[0]) then Some(0)
    else match FirstAllowed(kind, sel, s[1..])
      case None => None
      case Some(i) => Some(i + 1)
  }

  /** May `x` both handle `sel` and receive it from a proxy of this kind? */
  predicate Receives(kind: ProxyKind, sel: Selector, x: Responder) {
    sel in x.selectors && Allowed(kind, sel, x)
  }

  /** The reference rule, read from the end of the list: the index of the
      last entry that implements `sel` and may receive it. */
  function LastReceiver(kind: ProxyKind, sel: Selector, list: seq<Responder>): (r: Option<nat>)
    ensures r.Some? ==> r.value < |list| && Receives(kind, sel, list[r.value])
    ensures r.Some? ==> forall j :: r.value < j < |list| ==> !Receives(kind, sel, list[j])
    ensures r.None? ==> forall j :: 0 <= j < |list| ==> !Receives(kind, sel, list[j])
  {
    if |list| == 0 then None
    else if Receives(kind, sel, list[|list| - 1]) then Some(|list| - 1)
    else LastReceiver(kind, sel, list[..|list| - 1])
  }

  /** proxies(for:) of the delegate and data-source proxies: the first entry
      of the base dispatch allowed to receive `sel`. At most one entry
      receives a message: the last entry of the list that implements it and
      may receive it, and nothing exactly when no entry does; a reserved
      message only ever reaches the collection view. */
  function Dispatch(kind: ProxyKind, list: seq<Responder>, sel: Selector): (r: seq<Responder>)
    ensures |r| <= 1
    ensures forall x :: x in r ==> x in list && sel in x.selectors
    ensures Reserved(kind, sel) ==> forall x :: x in r ==> x.isCollectionView
    ensures r == [] <==> forall j :: 0 <= j < |list| ==> !Receives(kind, sel, list[j])
    ensures var last := LastReceiver(kind, sel, list);
      last.Some? ==> r == [list[last.value]]
  {
    var base := ProxiesFor(list, sel);
    DispatchReadsFromTheEnd(kind, sel, list);
    match FirstAllowed(kind, sel, base)
    case None => []
    case Some(i) => assert base[i] in base; [base[i]]
  }

  /** Implementing keeps list order, so an entry appended last comes last. */
  lemma {:induction false} ImplementingAppend(list: seq<Responder>, x: Responder, sel: Selector)
    ensures Implementing(list + [x], sel) == Implementing(list, sel) + if sel in x.selectors then [x] else []
  {
    if |list| > 0 {
      assert (list + [x])[1..] == list[1..] + [x];
      ImplementingAppend(list[1..], x, sel);
    } else {
      assert [x][1..] == [];
    }
  }

  lemma ReverseAppend(s: seq<Responder>, x: Responder)
    ensures Reverse(s + [x]) == [x] + Reverse(s)
  {
    assert forall i :: 0 <= i < |s| + 1 ==> Reverse(s + [x])[i] == ([x] + Reverse(s))[i];
  }

  /** The first allowed entry of the reversed implementing entries is the
      last entry of the list that receives the message. */
  lemma {:induction false} DispatchReadsFromTheEnd(kind: ProxyKind, sel: Selector, list: seq<Responder>)
    ensures var base := Reverse(Implementing(list, sel));
      var f, l := FirstAllowed(kind, sel, base), LastReceiver(kind, sel, list);
      f.None? == l.None? && (f.Some? ==> base[f.value] == list[l.value])
  {
    if |list| > 0 {
      var p, x := list[..|list| - 1], list[|list| - 1];
      assert list == p + [x];
      DispatchReadsFromTheEnd(kind, sel, p);
      ImplementingAppend(p, x, sel);
      var rest := Reverse(Implementing(p, sel));
      if sel in x.selectors {
        ReverseAppend(Implementing(p, sel), x);
        FirstAllowedPrepend(kind, sel, x, rest);
      } else {
        assert Implementing(list, sel) == Implementing(p, sel);
      }
    }
  }

  /** Putting one entry in front shifts the first allowed index by one. */
  lemma FirstAllowedPrepend(kind: ProxyKind, sel: Selector, x: Responder, s: seq<Responder>)
    ensures var f := FirstAllowed(kind, sel, [x] + s);
      if Allowed(kind, sel, x) then f == Some(0)
      else (f.None? == FirstAllowed(kind, sel, s).None? &&
            (f.Some? ==> f.value == FirstAllowed(kind, sel, s).value + 1))
  {
    assert ([x] + s)[1..] == s;
  }

  /** With the collection view and a host installed, an unreserved message
      goes to the host when the host implements it, and to the collection
      view otherwise. */
  lemma HostWinsUnreserved(kind: ProxyKind, cv: Responder, host: Responder, sel: Selector)
    requires !Reserved(kind, sel)
    ensures sel in host.selectors ==> Dispatch(kind, [cv, host], sel) == [host]
    ensures sel !in host.selectors && sel in cv.selectors ==> Dispatch(kind, [cv, host], sel) == [cv]
  {
    assert [cv, host][1..] == [host];
    assert [host][1..] == [];
  }

  /** A reserved message reaches the collection view whenever it implements
      it, even if the host implements it too. */
  lemma ReservedReachesCollectionView(kind: ProxyKind, cv: Responder, host: Responder, sel: Selector)
    requires Reserved(kind, sel) && cv.isCollectionView && !host.isCollectionView
    requires sel in cv.selectors
    ensures Dispatch(kind, [cv, host], sel) == [cv]
  {
    assert [cv, host][1..] == [host];
    assert [host][1..] == [];
  }

  /** The data-source proxy's cellForItemAt: the host when one is installed,
      otherwise the collection view (absent when the list has none). */
  function CellForItemResponder(list: seq<Responder>): (r: Option<Responder>)
    ensures r.Some? ==> r.value in list
    ensures DelegateOf(list).Some? ==> r == DelegateOf(list)
    ensures DelegateOf(list).None? ==> r == CollectionViewOf(list)
  {
    if DelegateOf(list).Some? then DelegateOf(list) else CollectionViewOf(list)
  }

  /** InfiniteCollectionViewProxy: the responder list of one proxy. */
  class ForwardingProxy {
    const kind: ProxyKind
    var proxies: seq<Responder>

    /** init(collectionView:) */
    constructor(kind: ProxyKind, collectionView: Responder)
      requires collectionView.isCollectionView
      ensures this.kind == kind && proxies == [collectionView]
    {
      this.kind := kind;
      proxies := [];
      new;
      SetCollectionView(collectionView);
    }

    /** The collectionView setter. */
    method SetCollectionView(collectionView: Responder)
      requires collectionView.isCollectionView
      modifies this
      ensures proxies == ReplaceCollectionView(old(proxies), collectionView)
    {
      if |proxies| > 0 {
        proxies := proxies[1..];
      }
      proxies := [collectionView] + proxies;
    }

    /** The delegate setter: removes entries from the end while there is more
        than one, then appends the new host. */
    method SetDelegate(delegate: Option<Responder>)
      modifies this
      ensures proxies == ReplaceDelegate(old(proxies), delegate)
    {
      while |proxies| > 1
        invariant proxies == old(proxies)[..|proxies|]
        invariant |old(proxies)| >= 1 ==> |proxies| >= 1
        invariant |old(proxies)| < 1 ==> proxies == old(proxies)
        decreases |proxies|
      {
        proxies := proxies[..|proxies| - 1];
      }
      if delegate.Some? {
        proxies := proxies + [delegate.value];
      }
    }

    /** deinit: the list is emptied. */
    method RemoveAll()
      modifies this
      ensures proxies == []
    {
      proxies := [];
    }

    /** proxies(for:) of this proxy. */
    function ProxiesForSelector(sel: Selector): seq<Responder>
      reads this
    {
      Dispatch(kind, proxies, sel)
    }
  }
}
