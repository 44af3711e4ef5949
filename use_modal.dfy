/** The `useModal` hook: two independent open/closed flags, one for the
    edit modal and one for the delete confirmation, each with open, close
    and toggle. */
module UseModal {

  class ModalFlags {
    var isOpen: bool
    var isDeleteOpen: bool

    /** Both flags start at `initialState`, which defaults to closed. */
    constructor (initialState: bool := false)
      ensures isOpen == initialState && isDeleteOpen == initialState
    {
      isOpen := initialState;
      isDeleteOpen := initialState;
    }

    method OpenModal()
      modifies this
      ensures isOpen && isDeleteOpen == old(isDeleteOpen)
    {
      isOpen := true;
    }

    method CloseModal()
      modifies this
      ensures !isOpen && isDeleteOpen == old(isDeleteOpen)
    {
      isOpen := false;
    }

    method ToggleModal()
      modifies this
      ensures isOpen == !old(isOpen) && isDeleteOpen == old(isDeleteOpen)
    {
      isOpen := !isOpen;
    }

    method OpenDeleteModal()
      modifies this
      ensures isDeleteOpen && isOpen == old(isOpen)
    {
      isDeleteOpen := true;
    }

    method CloseDeleteModal()
      modifies this
      ensures !isDeleteOpen && isOpen == old(isOpen)
    {
      isDeleteOpen := false;
    }

    method ToggleDeleteModal()
      modifies this
      ensures isDeleteOpen == !old(isDeleteOpen) && isOpen == old(isOpen)
    {
      isDeleteOpen := !isDeleteOpen;
    }
  }

  /** Opening twice ends where opening once does; so does closing, for either flag. */
  method OpenModalTwice(m: ModalFlags)
    modifies m
    ensures m.isOpen && m.isDeleteOpen == old(m.isDeleteOpen)
  {
    m.OpenModal();
    m.OpenModal();
  }

  method CloseModalTwice(m: ModalFlags)
    modifies m
    ensures !m.isOpen && m.isDeleteOpen == old(m.isDeleteOpen)
  {
    m.CloseModal();
    m.CloseModal();
  }

  method OpenDeleteModalTwice(m: ModalFlags)
    modifies m
    ensures m.isDeleteOpen && m.isOpen == old(m.isOpen)
  {
    m.OpenDeleteModal();
    m.OpenDeleteModal();
  }

  method CloseDeleteModalTwice(m: ModalFlags)
    modifies m
    ensures !m.isDeleteOpen && m.isOpen == old(m.isOpen)
  {
    m.CloseDeleteModal();
    m.CloseDeleteModal();
  }

  /** Toggling either flag twice restores both flags. */
  method ToggleTwiceRestores(m: ModalFlags)
    modifies m
    ensures m.isOpen == old(m.isOpen) && m.isDeleteOpen == old(m.isDeleteOpen)
  {
    m.ToggleModal();
    m.ToggleModal();
    m.ToggleDeleteModal();
    m.ToggleDeleteModal();
  }
}
