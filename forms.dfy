/**
 * The edit dialogs' form state: a JSON object updated one field at a time by the change handlers
 * (`setFormData(prev => ({...prev, [name]: …}))`).
 */
module Forms {
  import opened Models

  /** `{...prev, [name]: v}`: one field replaced or added, every other field kept. */
  function SetField(data: Record, name: string, v: Value): (r: Record)
    ensures r.Keys == data.Keys + {name} && r[name] == v
    ensures forall k :: k in data && k != name ==> r[k] == data[k]
  {
    data[name := v]
  }

  /** A text input's change: the raw string is stored. */
  function HandleChange(data: Record, name: string, value: string): (r: Record)
    ensures r.Keys == data.Keys + {name} && r[name] == Str(value)
    ensures forall k :: k in data && k != name ==> r[k] == data[k]
  {
    SetField(data, name, Str(value))
  }

  /** `e.target.value || null`: an empty date input stores `null`. */
  function DateValue(value: string): (v: Value)
    ensures v == Null <==> value == ""
    ensures value != "" ==> v == Str(value)
  {
    if value == "" then Null else Str(value)
  }

  /** A date input's change. */
  function HandleDateChange(data: Record, name: string, value: string): (r: Record)
    ensures r.Keys == data.Keys + {name}
    ensures r[name] == Null <==> value == ""
    ensures value != "" ==> r[name] == Str(value)
    ensures forall k :: k in data && k != name ==> r[k] == data[k]
  {
    SetField(data, name, DateValue(value))
  }

  /** Clearing a date and typing it again gives the same form as typing it directly. */
  lemma DateRetyped(data: Record, name: string, value: string)
    ensures HandleDateChange(HandleDateChange(data, name, ""), name, value) == HandleDateChange(data, name, value)
  {
    var once := HandleDateChange(data, name, value);
    var twice := HandleDateChange(HandleDateChange(data, name, ""), name, value);
    assert twice.Keys == once.Keys;
  }

  /** Of two changes to the same field, the later one wins. */
  lemma LastChangeWins(data: Record, name: string, v1: Value, v2: Value)
    ensures SetField(SetField(data, name, v1), name, v2) == SetField(data, name, v2)
  {
    assert SetField(SetField(data, name, v1), name, v2).Keys == SetField(data, name, v2).Keys;
  }

  /** Changes to different fields do not interfere, whatever their order. */
  lemma ChangesCommute(data: Record, n1: string, v1: Value, n2: string, v2: Value)
    requires n1 != n2
    ensures SetField(SetField(data, n1, v1), n2, v2) == SetField(SetField(data, n2, v2), n1, v1)
  {
    assert SetField(SetField(data, n1, v1), n2, v2).Keys == SetField(SetField(data, n2, v2), n1, v1).Keys;
  }
}
