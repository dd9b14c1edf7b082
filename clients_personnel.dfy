/**
 * The measurement sheets of a client (components/ClientsView.tsx): one profile
 * per person, each with a standard size, a table of measurements and notes,
 * and the profile shown on screen. The list and the active id are the state of
 * the detail window; each handler replaces them.
 */
module ClientsPersonnel {
  import opened Wrappers
  import opened Folds

  datatype Profile = Profile(id: string, name: string, standardSize: string, values: map<string, string>, notes: string)

  /** The field `updatePersonField` writes, with its new value. */
  datatype FieldUpdate =
    | SetId(id: string)
    | SetName(name: string)
    | SetStandardSize(standardSize: string)
    | SetValues(values: map<string, string>)
    | SetNotes(notes: string)

  /** `{ ...p, [field]: value }`: the named field takes the value, the others stay. */
  function Apply(p: Profile, f: FieldUpdate): (r: Profile)
    ensures r.id == (if f.SetId? then f.id else p.id)
    ensures r.name == (if f.SetName? then f.name else p.name)
    ensures r.standardSize == (if f.SetStandardSize? then f.standardSize else p.standardSize)
    ensures r.values == (if f.SetValues? then f.values else p.values)
    ensures r.notes == (if f.SetNotes? then f.notes else p.notes)
  {
    match f
    case SetId(v) => p.(id := v)
    case SetName(v) => p.(name := v)
    case SetStandardSize(v) => p.(standardSize := v)
    case SetValues(v) => p.(values := v)
    case SetNotes(v) => p.(notes := v)
  }

  /** `list.map(p => p.id === id ? { ...p, [field]: value } : p)` */
  function UpdateWhere(list: seq<Profile>, id: string, f: FieldUpdate): (r: seq<Profile>)
    ensures |r| == |list|
    ensures forall k :: 0 <= k < |list| ==> r[k] == if list[k].id == id then Apply(list[k], f) else list[k]
  {
    seq(|list|, k requires 0 <= k < |list| => if list[k].id == id then Apply(list[k], f) else list[k])
  }

  /** `list.find(p => p.id === id)` */
  function FindProfile(list: seq<Profile>, id: string): (r: Option<Profile>)
    ensures r.None? <==> forall k :: 0 <= k < |list| ==> list[k].id != id
    ensures r.Some? ==> exists k :: (0 <= k < |list| && list[k] == r.value && r.value.id == id &&
                                     forall j :: 0 <= j < k ==> list[j].id != id)
  {
    if list == [] then None
    else if list[0].id == id then Some(list[0])
    else
      var r := FindProfile(list[1..], id);
      assert forall j :: 1 <= j < |list| ==> list[j] == list[1..][j - 1];
      if r.Some? then
        var k :| 0 <= k < |list[1..]| && list[1..][k] == r.value && r.value.id == id &&
          forall j :: 0 <= j < k ==> list[1..][j].id != id;
        assert list[k + 1] == r.value;
        r
      else r
  }

  class Personnel {
    var personnelList: seq<Profile>
    var activePersonId: Option<string>

    /** No sheets loaded and none shown. */
    constructor ()
      ensures personnelList == [] && activePersonId == None
    {
      personnelList, activePersonId := [], None;
    }

    /** `handleAddPerson`, with `crypto.randomUUID()` passed in: one empty profile
        is appended and shown. */
    method AddPerson(newId: string)
      modifies this
      ensures personnelList == old(personnelList) + [Profile(newId, "Nuevo Personal", "", map[], "")]
      ensures activePersonId == Some(newId)
    {
      personnelList := personnelList + [Profile(newId, "Nuevo Personal", "", map[], "")];
      activePersonId := Some(newId);
    }

    /** `handleRemovePerson`; `confirmed` is the answer to the confirmation
        dialog. The profiles with that id go, and the first remaining one is
        shown, or none. */
    method RemovePerson(id: string, confirmed: bool)
      modifies this
      ensures !confirmed ==> personnelList == old(personnelList) && activePersonId == old(activePersonId)
      ensures confirmed ==> personnelList == Filter(old(personnelList), (p: Profile) => p.id != id)
      ensures confirmed ==> forall p :: p in personnelList <==> p in old(personnelList) && p.id != id
      ensures confirmed ==> activePersonId == if personnelList == [] then None else Some(personnelList[0].id)
    {
      if confirmed {
        var updated := Filter(personnelList, (p: Profile) => p.id != id);
        forall p ensures p in updated <==> p in personnelList && p.id != id {
          FilterMembership(personnelList, (p: Profile) => p.id != id, p);
        }
        personnelList := updated;
        if |updated| > 0 {
          activePersonId := Some(updated[0].id);
        } else {
          activePersonId := None;
        }
      }
    }

    /** `updatePersonField`: every profile with that id gets the new field value. */
    method UpdatePersonField(id: string, f: FieldUpdate)
      modifies this
      ensures personnelList == UpdateWhere(old(personnelList), id, f)
      ensures activePersonId == old(activePersonId)
    {
      personnelList := UpdateWhere(personnelList, id, f);
    }

    /** `updatePersonValue`: the measurement `key` of the first profile with that id
        is set, and that table is written to every profile with the id. Nothing
        changes when no profile has it. */
    method UpdatePersonValue(id: string, key: string, value: string)
      modifies this
      ensures FindProfile(old(personnelList), id).None? ==> personnelList == old(personnelList)
      ensures FindProfile(old(personnelList), id).Some? ==>
        personnelList == UpdateWhere(old(personnelList), id, SetValues(FindProfile(old(personnelList), id).value.values[key := value]))
      ensures activePersonId == old(activePersonId)
    {
      var person := FindProfile(personnelList, id);
      if person.Some? {
        UpdatePersonField(id, SetValues(person.value.values[key := value]));
      }
    }
  }

  /** A measurement edit on a profile whose id is unique sets that one key and
      leaves every other key, every other field and every other profile alone. */
  lemma UpdateValueTouchesOneKey(list: seq<Profile>, k: nat, key: string, value: string)
    requires k < |list|
    requires forall j :: 0 <= j < |list| && j != k ==> list[j].id != list[k].id
    ensures FindProfile(list, list[k].id) == Some(list[k])
    ensures var r := UpdateWhere(list, list[k].id, SetValues(list[k].values[key := value]));
      |r| == |list| &&
      r[k].values[key] == value &&
      (forall other :: other != key && other in list[k].values ==> other in r[k].values && r[k].values[other] == list[k].values[other]) &&
      r[k].id == list[k].id && r[k].name == list[k].name && r[k].standardSize == list[k].standardSize &&
      r[k].notes == list[k].notes &&
      (forall j :: 0 <= j < |list| && j != k ==> r[j] == list[j])
  {
    var found := FindProfile(list, list[k].id);
    var i :| 0 <= i < |list| && list[i] == found.value && found.value.id == list[k].id &&
      forall j :: 0 <= j < i ==> list[j].id != list[k].id;
    assert i == k;
  }
}
