/** The transient notification (src/store/useToast.ts): a message, its kind,
    where it shows and whether it is on screen. */
module ToastStore {
  import opened Common

  datatype ToastType = AddToast | EditToast | DeleteToast | SuccessToast | ErrorToast | CenterToast

  datatype ToastPosition = Top | Center

  /** The position `showToast` uses: the one given, else the top. */
  function PositionOrTop(position: Option<ToastPosition>): (r: ToastPosition)
    ensures position.None? ==> r == Top
    ensures position.Some? ==> r == position.value
  {
    position.GetOr(Top)
  }

  class Toast {
    var message: string
    var kind: ToastType
    var position: ToastPosition
    var visible: bool

    constructor ()
      ensures message == "" && kind == SuccessToast && position == Top && !visible
    {
      message, kind, position, visible := "", SuccessToast, Top, false;
    }

    method ShowToast(msg: string, k: ToastType, pos: Option<ToastPosition>)
      modifies this
      ensures message == msg && kind == k && visible
      ensures position == PositionOrTop(pos)
    {
      message, kind, position, visible := msg, k, PositionOrTop(pos), true;
    }

    /** Hiding touches nothing but visibility. */
    method HideToast()
      modifies this`visible
      ensures !visible
      ensures message == old(message) && kind == old(kind) && position == old(position)
    {
      visible := false;
    }
  }
}
