/**
 * The modal store (`modalStore.ts`): whether the modal dialog is open, its
 * title, the component it shows and that component's properties. The
 * component is identified by name, and property values are kept as
 * uninterpreted text.
 */
module Modal {
  import opened Wrappers

  type Props = map<string, string>

  datatype ModalState = ModalState(isOpen: bool, title: string, component: Option<string>, props: Props)

  /** The store's initial value: closed, untitled, no component, no properties. */
  const Closed: ModalState := ModalState(false, "", None, map[])

  /** `open(title, component, props = {})`: the whole state is replaced. */
  function Open(st: ModalState, title: string, component: Option<string>, props: Option<Props>): (r: ModalState)
    ensures r.isOpen && r.title == title && r.component == component
    ensures r.props == (if props.Some? then props.value else map[])
  {
    ModalState(true, title, component, if props.Some? then props.value else map[])
  }

  /** `close`: back to the initial value. */
  function Close(st: ModalState): (r: ModalState)
    ensures r == Closed && !r.isOpen
  {
    Closed
  }

  /** What `open` shows does not depend on what was shown before. */
  lemma OpenForgets(a: ModalState, b: ModalState, title: string, component: Option<string>, props: Option<Props>)
    ensures Open(a, title, component, props) == Open(b, title, component, props)
  {
  }

  /** Omitted properties are the empty set of properties. */
  lemma OpenDefaultProps(st: ModalState, title: string, component: Option<string>)
    ensures Open(st, title, component, None) == Open(st, title, component, Some(map[]))
  {
  }

  /** Closing is idempotent, and opening then closing restores the initial value. */
  lemma CloseRestores(st: ModalState, title: string, component: Option<string>, props: Option<Props>)
    ensures Close(Close(st)) == Close(st)
    ensures Close(Open(st, title, component, props)) == Closed
  {
  }
}
