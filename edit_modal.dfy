/**
 * The generic edit dialog of src/components/admin/EditModal.tsx: on submit it
 * hands its parent `{ ...initialData, ...data }`, the record being edited
 * overlaid with every named form field.
 */
module EditModal {
  import opened Store

  /**
   * A field value as it travels through the dialog. Numbers and nulls come
   * only from the stored record; `FormData` entries are always text.
   */
  datatype Value = Text(s: string) | Number(n: real) | Null

  /** A plain object: field name to value. */
  type Record = map<string, Value>

  /** The object spread `{ ...initial, ...form }`. */
  function Merge(initial: Record, form: Record): (r: Record)
    ensures r.Keys == initial.Keys + form.Keys
    ensures forall k :: k in form ==> r[k] == form[k]
    ensures forall k :: k in initial && k !in form ==> r[k] == initial[k]
  {
    initial + form
  }

  /** The entries of a `FormData`: text only. */
  predicate FormEntries(form: Record) {
    forall k :: k in form ==> form[k].Text?
  }

  /**
   * A numeric column the form also has arrives as text, whatever the stored
   * record held: the handlers parse it back (`parseFloat`, `parseInt`).
   */
  lemma NumbersArriveAsText(initial: Record, form: Record, k: string)
    requires FormEntries(form) && k in form && k in initial && initial[k].Number?
    ensures Merge(initial, form)[k].Text?
  {
  }

  /**
   * What a submit hands to the parent: nothing while the dialog is closed
   * (it renders nothing, so there is no form to submit), the merge otherwise.
   */
  function Submit(isOpen: bool, initial: Record, form: Record): (r: Option<Record>)
    ensures r.Some? <==> isOpen
    ensures r.Some? ==> r.value == Merge(initial, form)
  {
    if !isOpen then None else Some(initial + form)
  }

  /**
   * The edit handlers read `data.id` from the submitted record: as long as the
   * form has no `id` field, the edited row's id survives the merge.
   */
  lemma MergeKeepsId(initial: Record, form: Record)
    requires "id" in initial && "id" !in form
    ensures "id" in Merge(initial, form) && Merge(initial, form)["id"] == initial["id"]
  {
  }

  /** Submitting the same form twice over its own result changes nothing more. */
  lemma MergeIdempotent(initial: Record, form: Record)
    ensures Merge(Merge(initial, form), form) == Merge(initial, form)
  {
  }
}
