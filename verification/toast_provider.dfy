/** `components/toast-provider.tsx`: which toasts are displayed, and the
    set of toast ids already shown that hides the login toast for good. */
module ToastFilter {
  import opened Types
  import opened Seqs
  import opened Navigation

  const LoginSuccess: string := "login-success"

  datatype Variant = Default | Success | Warning | Destructive

  datatype Toast = Toast(id: string, title: Option<string>, description: Option<string>, variant: Option<Variant>)

  /** The test inside `toasts.filter`: the login toast shows only on the
      dashboard and only while its id is not in the shown set; every other
      toast always shows. */
  predicate Displayed(id: string, pathname: string, shown: set<string>)
    ensures !Displayed(id, pathname, shown) ==> id == LoginSuccess
    ensures id == LoginSuccess ==> (Displayed(id, pathname, shown) <==> pathname == DashboardPath && id !in shown)
  {
    if id == LoginSuccess then !(pathname != DashboardPath || id in shown) else true
  }

  function DisplayTest(pathname: string, shown: set<string>): Toast -> bool
  {
    (t: Toast) => Displayed(t.id, pathname, shown)
  }

  /** `filteredToasts`: the toasts that pass, in their original order. */
  function FilteredToasts(toasts: seq<Toast>, pathname: string, shown: set<string>): (r: seq<Toast>)
    ensures IsSubsequence(r, toasts)
    ensures forall i :: 0 <= i < |r| ==> r[i] in toasts && Displayed(r[i].id, pathname, shown)
    ensures forall i :: 0 <= i < |toasts| && Displayed(toasts[i].id, pathname, shown) ==> toasts[i] in r
    ensures forall t :: multiset(r)[t] == if Displayed(t.id, pathname, shown) then multiset(toasts)[t] else 0
  {
    FilterMultiset(DisplayTest(pathname, shown), toasts);
    Filter(DisplayTest(pathname, shown), toasts)
  }

  /** A toast list without the login toast is displayed as it is, wherever
      the user is and whatever has been shown. */
  lemma OtherToastsPassUnchanged(toasts: seq<Toast>, pathname: string, shown: set<string>)
    requires forall i :: 0 <= i < |toasts| ==> toasts[i].id != LoginSuccess
    ensures FilteredToasts(toasts, pathname, shown) == toasts
  {
    FilterKeepsAll(DisplayTest(pathname, shown), toasts);
  }

  /** The login toast is displayed exactly when it is queued, the path is the
      dashboard, and it has not been marked shown. */
  lemma LoginToastDisplayedIff(toasts: seq<Toast>, pathname: string, shown: set<string>)
    ensures (exists i :: 0 <= i < |FilteredToasts(toasts, pathname, shown)| && FilteredToasts(toasts, pathname, shown)[i].id == LoginSuccess)
        <==> (pathname == DashboardPath && LoginSuccess !in shown
              && exists i :: 0 <= i < |toasts| && toasts[i].id == LoginSuccess)
  {
    var r := FilteredToasts(toasts, pathname, shown);
    if pathname == DashboardPath && LoginSuccess !in shown && exists i :: 0 <= i < |toasts| && toasts[i].id == LoginSuccess {
      var i :| 0 <= i < |toasts| && toasts[i].id == LoginSuccess;
      assert toasts[i] in r;
      var k :| 0 <= k < |r| && r[k] == toasts[i];
    }
  }

  /** Marking more toasts as shown can only hide more: the display under a
      larger set is a subsequence of the display under a smaller one. */
  lemma MoreShownHidesMore(toasts: seq<Toast>, pathname: string, shown: set<string>, more: set<string>)
    requires shown <= more
    ensures IsSubsequence(FilteredToasts(toasts, pathname, more), FilteredToasts(toasts, pathname, shown))
  {
    FilterStricter(DisplayTest(pathname, shown), DisplayTest(pathname, more), toasts);
  }

  /** The `shownToasts` set, filled by three event handlers and never emptied. */
  class ShownToasts {
    var shown: set<string>

    /** Only the login toast's id is ever recorded. */
    ghost predicate Valid()
      reads this
    {
      shown <= {LoginSuccess}
    }

    constructor ()
      ensures Valid() && shown == {}
    {
      shown := {};
    }

    /** The auto-dismiss timer for a toast fired: the login toast is recorded. */
    method OnAutoDismiss(id: string)
      requires Valid()
      modifies this
      ensures Valid() && old(shown) <= shown
      ensures shown == if id == LoginSuccess then old(shown) + {id} else old(shown)
    {
      if id == LoginSuccess {
        shown := shown + {id};
      }
    }

    /** The deferred "mark shown" scheduled when the login toast passed the
        filter on the dashboard; that timer is only ever set for the login toast. */
    method OnDeferredMark()
      requires Valid()
      modifies this
      ensures Valid() && old(shown) <= shown
      ensures shown == old(shown) + {LoginSuccess}
    {
      shown := shown + {LoginSuccess};
    }

    /** The close button of a toast was pressed: the login toast is recorded. */
    method OnClose(id: string)
      requires Valid()
      modifies this
      ensures Valid() && old(shown) <= shown
      ensures shown == if id == LoginSuccess then old(shown) + {id} else old(shown)
    {
      if id == LoginSuccess {
        shown := shown + {id};
      }
    }

    /** What the container displays for the given queue and path right now. */
    function Visible(toasts: seq<Toast>, pathname: string): (r: seq<Toast>)
      reads this
      requires Valid()
      ensures LoginSuccess in shown ==> forall i :: 0 <= i < |r| ==> r[i].id != LoginSuccess
      ensures forall i :: 0 <= i < |toasts| && toasts[i].id != LoginSuccess ==> toasts[i] in r
      ensures forall t: Toast :: t.id != LoginSuccess ==> multiset(r)[t] == multiset(toasts)[t]
    {
      FilteredToasts(toasts, pathname, shown)
    }
  }
}
