/** The component state every list view keeps besides its filters: which
    record the detail dialog shows and whether it is open, and the
    refreshing flag of the views that simulate a reload. */
module ViewState {
  import opened Optional
  import opened Notices

  /** The `selectedX` / `isDetailsOpen` pair of a list view over `records`.
      The records never change; only the selection and the flag do. */
  class MasterDetail<R(==)> {
    const records: seq<R>
    var selected: Option<R>
    var isDetailsOpen: bool

    /** The selection, when there is one, is a record of the view. */
    ghost predicate Valid()
      reads this
    {
      selected.Some? ==> selected.value in records
    }

    /** Initial state: nothing selected, dialog closed. */
    constructor (data: seq<R>)
      ensures records == data && selected == None && !isDetailsOpen
      ensures Valid()
    {
      records := data;
      selected := None;
      isDetailsOpen := false;
    }

    /** The dialog shows a record: one is selected and the flag is set. */
    predicate DetailsShown()
      reads this
    {
      selected.Some? && isDetailsOpen
    }

    /** `setSelectedX(r); setIsDetailsOpen(true)`: the new selection replaces
        any earlier one. */
    method Select(r: R)
      requires Valid() && r in records
      modifies this
      ensures Valid()
      ensures selected == Some(r) && isDetailsOpen
      ensures DetailsShown()
    {
      selected := Some(r);
      isDetailsOpen := true;
    }

    /** `onOpenChange` or a Close button: only the flag changes, the
        selection is kept. */
    method SetDetailsOpen(open: bool)
      requires Valid()
      modifies this
      ensures Valid()
      ensures isDetailsOpen == open && selected == old(selected)
      ensures !open ==> !DetailsShown()
    {
      isDetailsOpen := open;
    }

    /** Carries out what an action handler decided: only `ShowDetails`
        changes the state; a notice is passed on to the caller. */
    method Apply(o: Outcome<R>) returns (n: Option<Notice>)
      requires Valid()
      requires o.ShowDetails? ==> o.record in records
      modifies this
      ensures Valid()
      ensures o.ShowDetails? ==> selected == Some(o.record) && isDetailsOpen
      ensures !o.ShowDetails? ==> selected == old(selected) && isDetailsOpen == old(isDetailsOpen)
      ensures n == if o.Notify? then Some(o.notice) else None
    {
      n := None;
      match o {
        case ShowDetails(r) => Select(r);
        case Notify(notice) => n := Some(notice);
        case Ignored =>
      }
    }
  }

  /** A dialog whose open state is the nullable selection itself
      (`open={!!selectedX}`), as on the dashboard. */
  class NullableDetail<R(==)> {
    const records: seq<R>
    var selected: Option<R>

    ghost predicate Valid()
      reads this
    {
      selected.Some? ==> selected.value in records
    }

    constructor (data: seq<R>)
      ensures records == data && selected == None && !IsOpen()
      ensures Valid()
    {
      records := data;
      selected := None;
    }

    /** The dialog is open exactly when something is selected. */
    predicate IsOpen()
      reads this
    {
      selected.Some?
    }

    method Select(r: R)
      requires Valid() && r in records
      modifies this
      ensures Valid() && selected == Some(r) && IsOpen()
    {
      selected := Some(r);
    }

    /** `onOpenChange={() => setSelectedX(null)}`: any open-change, whatever
        it asks for, clears the selection and so closes the dialog. */
    method OnOpenChange(requested: bool)
      requires Valid()
      modifies this
      ensures Valid() && selected == None && !IsOpen()
    {
      selected := None;
    }
  }

  /** The `refreshing` flag of a view's Refresh button. The 1.5 second wait
      between the two halves is not modelled. */
  class Refresher {
    var refreshing: bool

    constructor ()
      ensures !refreshing
    {
      refreshing := false;
    }

    /** `setRefreshing(true)`: the button is disabled and its icon spins. */
    method BeginRefresh()
      modifies this
      ensures refreshing
    {
      refreshing := true;
    }

    /** After the wait: `setRefreshing(false)` and a success toast. */
    method FinishRefresh(message: string) returns (n: Notice)
      modifies this
      ensures !refreshing
      ensures n == Toast(Success, message)
    {
      refreshing := false;
      n := Toast(Success, message);
    }
  }
}
