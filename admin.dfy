/**
 * The admin panel: a modal form that edits or adds a listing, deletion by
 * id after a confirmation, and the search box that filters the table.
 * The listing collection is the application's state, passed in with its
 * setter; the model keeps it as a field of the dashboard.
 */
module Admin {
  import opened Listings

  /**
   * The modal's form. It holds a record's id only when it was filled from
   * an existing record; the form of a new listing has none.
   */
  datatype Form = Form(
    id: Option<string>,
    name: string,
    nameNP: string,
    sector: string,
    kind: string,
    category: string,
    issuedUnits: real,
    price: real,
    openDate: string,
    closeDate: string)

  /** One `onChange` of the form: the named field takes the new value. */
  datatype FieldEdit =
    | SetName(name: string)
    | SetNameNP(nameNP: string)
    | SetSector(sector: string)
    | SetKind(kind: string)
    | SetCategory(category: string)
    | SetIssuedUnits(issuedUnits: real)
    | SetPrice(price: real)
    | SetOpenDate(openDate: string)
    | SetCloseDate(closeDate: string)

  /** The form of a new listing: no id, and the required text fields still empty. */
  function DefaultForm(): (f: Form)
    ensures f.id.None? && !RequiredFilled(f)
    ensures f.name == "" && f.nameNP == "" && f.openDate == "" && f.closeDate == ""
    ensures f.sector == "Commercial Bank" && f.kind == "IPO" && f.category == "General Public"
    ensures f.issuedUnits == 0.0 && f.price == 100.0
  {
    Form(None, "", "", "Commercial Bank", "IPO", "General Public", 0.0, 100.0, "", "")
  }

  /** `setFormData(ipo)`: the form filled from an existing record, carrying its id. */
  function FormOf(ipo: Ipo): Form
  {
    Form(Some(ipo.id), ipo.name, ipo.nameNP, ipo.sector, ipo.kind, ipo.category,
         ipo.issuedUnits, ipo.price, ipo.openDate, ipo.closeDate)
  }

  /** `{ ...formData, field: value }`. */
  function ApplyEdit(f: Form, e: FieldEdit): (r: Form)
    ensures r.id == f.id
  {
    match e
    case SetName(v) => f.(name := v)
    case SetNameNP(v) => f.(nameNP := v)
    case SetSector(v) => f.(sector := v)
    case SetKind(v) => f.(kind := v)
    case SetCategory(v) => f.(category := v)
    case SetIssuedUnits(v) => f.(issuedUnits := v)
    case SetPrice(v) => f.(price := v)
    case SetOpenDate(v) => f.(openDate := v)
    case SetCloseDate(v) => f.(closeDate := v)
  }

  /** The text inputs marked `required`: the browser submits the form only when all are filled. */
  predicate RequiredFilled(f: Form)
  {
    f.name != "" && f.nameNP != "" && f.openDate != "" && f.closeDate != ""
  }

  /** `{ ...formData, id }`: a record with the form's fields and the given id. */
  function WithId(f: Form, id: string): (r: Ipo)
    ensures r.id == id
    ensures FormOf(r) == f.(id := Some(id))
  {
    Ipo(id, f.name, f.nameNP, f.sector, f.kind, f.category, f.issuedUnits, f.price,
        f.openDate, f.closeDate)
  }

  /** `{ ...item, ...formData }`: every form field wins; the id stays unless the form carries one. */
  function Overlay(item: Ipo, f: Form): (r: Ipo)
    ensures r == WithId(f, if f.id.Some? then f.id.value else item.id)
  {
    var id := if f.id.Some? then f.id.value else item.id;
    item.(id := id, name := f.name, nameNP := f.nameNP, sector := f.sector, kind := f.kind,
          category := f.category, issuedUnits := f.issuedUnits, price := f.price,
          openDate := f.openDate, closeDate := f.closeDate)
  }

  /** A record's form, saved under the record's own id, is the record again. */
  lemma FormOfRoundTrip(ipo: Ipo)
    ensures FormOf(ipo).id == Some(ipo.id)
    ensures WithId(FormOf(ipo), ipo.id) == ipo
  {
  }

  /** A form taken from a record and left untouched reproduces that record. */
  lemma OverlayUnchangedForm(item: Ipo, ipo: Ipo)
    ensures Overlay(item, FormOf(ipo)) == ipo
  {
  }

  /** The edit: every record with the edited id takes the form's fields. */
  function EditById(s: seq<Ipo>, id: string, f: Form): (r: seq<Ipo>)
    ensures |r| == |s|
    ensures forall i :: 0 <= i < |s| && s[i].id != id ==> r[i] == s[i]
    ensures forall i :: 0 <= i < |s| && s[i].id == id ==> r[i] == Overlay(s[i], f)
  {
    seq(|s|, i requires 0 <= i < |s| => if s[i].id == id then Overlay(s[i], f) else s[i])
  }

  /** A form whose id is the edited one, or none, leaves every id where it was. */
  lemma EditKeepsIds(s: seq<Ipo>, id: string, f: Form)
    requires f.id == None || f.id == Some(id)
    ensures forall i :: 0 <= i < |s| ==> EditById(s, id, f)[i].id == s[i].id
  {
  }

  /** Saving the same form twice is saving it once. */
  lemma EditIdempotent(s: seq<Ipo>, id: string, f: Form)
    requires f.id == None || f.id == Some(id)
    ensures EditById(EditById(s, id, f), id, f) == EditById(s, id, f)
  {
    var r := EditById(s, id, f);
    EditKeepsIds(s, id, f);
    assert forall i :: 0 <= i < |s| && r[i].id == id ==> Overlay(r[i], f) == r[i];
  }

  /** The records whose id is not `id`, in their order. */
  function DeleteById(s: seq<Ipo>, id: string): (r: seq<Ipo>)
    ensures IsSubsequence(r, s)
    ensures forall x :: x in r ==> x.id != id
    ensures forall x: Ipo :: x.id != id ==> multiset(r)[x] == multiset(s)[x]
  {
    var r := Keep(s, (x: Ipo) => x.id != id);
    assert forall x :: x in r ==> multiset(r)[x] > 0;
    r
  }

  /** Deleting an id no record carries changes nothing. */
  lemma DeleteAbsent(s: seq<Ipo>, id: string)
    requires forall i :: 0 <= i < |s| ==> s[i].id != id
    ensures DeleteById(s, id) == s
  {
    KeepAll(s, (x: Ipo) => x.id != id);
  }

  /** Deleting a just-added record with a fresh id gives back the list before the add. */
  lemma DeleteUndoesAdd(s: seq<Ipo>, f: Form, id: string)
    requires forall i :: 0 <= i < |s| ==> s[i].id != id
    ensures DeleteById([WithId(f, id)] + s, id) == s
  {
    var t := [WithId(f, id)] + s;
    assert t[1..] == s;
    DeleteAbsent(s, id);
  }

  // ---------------------------------------------------------------------------
  // Search

  /** One character of `toLowerCase`, on the letters A to Z; every other character is kept. */
  function LowerChar(c: char): (r: char)
    ensures 'A' <= c <= 'Z' ==> 'a' <= r <= 'z' && r as int - c as int == 32
    ensures !('A' <= c <= 'Z') ==> r == c
  {
    if 'A' <= c <= 'Z' then (c as int + 32) as char else c
  }

  /** `toLowerCase`, character by character. */
  function Lower(s: string): (r: string)
    ensures |r| == |s|
    ensures forall i :: 0 <= i < |s| ==> r[i] == LowerChar(s[i])
  {
    if s == [] then [] else [LowerChar(s[0])] + Lower(s[1..])
  }

  /** `sub` occurs in `s` starting at index `i`. */
  predicate OccursAt(s: string, sub: string, i: int)
  {
    0 <= i <= |s| - |sub| && s[i..i + |sub|] == sub
  }

  /** `s.includes(sub)`. */
  function Contains(s: string, sub: string): (b: bool)
    ensures b <==> exists i :: OccursAt(s, sub, i)
    decreases |s|
  {
    if |sub| <= |s| && s[..|sub|] == sub then
      assert OccursAt(s, sub, 0);
      true
    else if s == [] then
      false
    else
      var b := Contains(s[1..], sub);
      if b then
        ghost var i :| OccursAt(s[1..], sub, i);
        assert s[i + 1..i + 1 + |sub|] == s[1..][i..i + |sub|];
        assert OccursAt(s, sub, i + 1);
        b
      else
        assert forall i :: OccursAt(s, sub, i) ==> i >= 1 && OccursAt(s[1..], sub, i - 1) by {
          forall i | OccursAt(s, sub, i) ensures i >= 1 && OccursAt(s[1..], sub, i - 1) {
            assert s[i..i + |sub|] == s[1..][i - 1..i - 1 + |sub|];
          }
        }
        b
  }

  /**
   * The search predicate of the table: the lower-cased English name contains
   * the lower-cased query, or the Nepali name contains the query as typed.
   */
  function Matches(ipo: Ipo, query: string): (b: bool)
    ensures query == "" ==> b
    ensures Contains(ipo.nameNP, query) ==> b
  {
    assert query == "" ==> OccursAt(Lower(ipo.name), Lower(query), 0);
    Contains(Lower(ipo.name), Lower(query)) || Contains(ipo.nameNP, query)
  }

  /** The records the table shows for a query, in their order. */
  function Search(s: seq<Ipo>, query: string): (r: seq<Ipo>)
    ensures IsSubsequence(r, s)
    ensures forall x :: x in r ==> Matches(x, query)
    ensures forall x :: Matches(x, query) ==> multiset(r)[x] == multiset(s)[x]
  {
    var r := Keep(s, x => Matches(x, query));
    assert forall x :: x in r ==> multiset(r)[x] > 0;
    r
  }

  /** The empty query shows every record. */
  lemma SearchEmptyQuery(s: seq<Ipo>)
    ensures Search(s, "") == s
  {
    KeepAll(s, x => Matches(x, ""));
  }

  /** `toLowerCase` of a lower-cased string changes nothing. */
  lemma LowerIdempotent(s: string)
    ensures Lower(Lower(s)) == Lower(s)
  {
  }

  /**
   * The English-name part of the search ignores letter case on both sides:
   * if a query finds a name, it finds every name that differs only in case,
   * and so does every query that differs only in case.
   */
  lemma SearchIgnoresCaseOfName(a: Ipo, b: Ipo, q: string, q': string)
    requires Lower(a.name) == Lower(b.name) && Lower(q) == Lower(q')
    ensures Contains(Lower(a.name), Lower(q)) ==> Matches(b, q')
  {
  }

  /** Searching for the lower-cased query finds every record the query finds by its English name. */
  lemma LowerCasedQueryFindsSameNames(ipo: Ipo, q: string)
    ensures Contains(Lower(ipo.name), Lower(q)) ==> Matches(ipo, Lower(q))
  {
    LowerIdempotent(q);
    SearchIgnoresCaseOfName(ipo, ipo, q, Lower(q));
  }

  /** "NAB" finds the listing named "Nabil". */
  lemma SearchNameExample()
    ensures Matches(Ipo("a1", "Nabil", "", "", "", "", 0.0, 0.0, "", ""), "NAB")
  {
    assert Lower("Nabil") == "nabil";
    assert Lower("NAB") == "nab";
    assert OccursAt("nabil", "nab", 0);
  }

  /** The Nepali-name part is case-sensitive: "ab" does not find a Nepali name "Ab". */
  lemma NepaliNameIsCaseSensitive()
    ensures Matches(Ipo("a1", "", "Ab", "", "", "", 0.0, 0.0, "", ""), "Ab")
    ensures !Matches(Ipo("a1", "", "Ab", "", "", "", 0.0, 0.0, "", ""), "ab")
  {
    assert OccursAt("Ab", "Ab", 0);
    assert Lower("ab") == "ab";
    assert !OccursAt("Ab", "ab", 0) by {
      assert "Ab"[0..2][0] != "ab"[0];
    }
    assert forall i :: OccursAt("Ab", "ab", i) ==> i == 0;
  }

  class Dashboard {
    var ipos: seq<Ipo>
    var isModalOpen: bool
    var editingIpo: Option<Ipo>
    var searchQuery: string
    var error: Option<string>
    var formData: Form

    /** The form carries the id of the record being edited, and no id when adding. */
    ghost predicate Valid()
      reads this
    {
      formData.id == if editingIpo.Some? then Some(editingIpo.value.id) else None
    }

    constructor (ipos: seq<Ipo>)
      ensures Valid()
      ensures this.ipos == ipos && !isModalOpen && editingIpo.None?
      ensures searchQuery == "" && error.None? && formData == DefaultForm()
    {
      this.ipos := ipos;
      isModalOpen := false;
      editingIpo := None;
      searchQuery := "";
      error := None;
      formData := DefaultForm();
    }

    /** `handleOpenModal`: with a record, edit it; without, start from the defaults. */
    method OpenModal(ipo: Option<Ipo>)
      requires Valid()
      modifies this
      ensures Valid()
      ensures isModalOpen && editingIpo == ipo
      ensures formData == if ipo.Some? then FormOf(ipo.value) else DefaultForm()
      ensures ipos == old(ipos) && searchQuery == old(searchQuery) && error == old(error)
    {
      if ipo.Some? {
        editingIpo := ipo;
        formData := FormOf(ipo.value);
      } else {
        editingIpo := None;
        formData := DefaultForm();
      }
      isModalOpen := true;
    }

    /** The close button or the backdrop. */
    method CloseModal()
      requires Valid()
      modifies this
      ensures Valid()
      ensures !isModalOpen
      ensures ipos == old(ipos) && editingIpo == old(editingIpo) && formData == old(formData)
      ensures searchQuery == old(searchQuery) && error == old(error)
    {
      isModalOpen := false;
    }

    method EditField(e: FieldEdit)
      requires Valid()
      modifies this
      ensures Valid()
      ensures formData == ApplyEdit(old(formData), e)
      ensures ipos == old(ipos) && isModalOpen == old(isModalOpen) && editingIpo == old(editingIpo)
      ensures searchQuery == old(searchQuery) && error == old(error)
    {
      formData := ApplyEdit(formData, e);
    }

    method SetSearchQuery(query: string)
      requires Valid()
      modifies this
      ensures Valid()
      ensures searchQuery == query
      ensures ipos == old(ipos) && isModalOpen == old(isModalOpen) && editingIpo == old(editingIpo)
      ensures formData == old(formData) && error == old(error)
    {
      searchQuery := query;
    }

    /**
     * `handleSubmit`, reached only while the modal shows a form whose
     * required fields are filled. `newId` stands for the random id of a
     * new record.
     */
    method Submit(newId: string)
      requires Valid()
      modifies this
      ensures Valid()
      ensures editingIpo == old(editingIpo) && formData == old(formData)
      ensures searchQuery == old(searchQuery)
      ensures !(old(isModalOpen) && RequiredFilled(old(formData))) ==>
        ipos == old(ipos) && isModalOpen == old(isModalOpen) && error == old(error)
      ensures old(isModalOpen) && RequiredFilled(old(formData)) ==>
        && !isModalOpen && error.None?
        && ipos == if old(editingIpo).Some?
                   then EditById(old(ipos), old(editingIpo).value.id, old(formData))
                   else [WithId(old(formData), newId)] + old(ipos)
      ensures old(isModalOpen) && RequiredFilled(old(formData)) && old(editingIpo).Some? ==>
        |ipos| == |old(ipos)| && forall i :: 0 <= i < |ipos| ==> ipos[i].id == old(ipos)[i].id
    {
      if !(isModalOpen && RequiredFilled(formData)) {
        return;
      }
      error := None;
      if editingIpo.Some? {
        EditKeepsIds(ipos, editingIpo.value.id, formData);
        ipos := EditById(ipos, editingIpo.value.id, formData);
      } else {
        ipos := [WithId(formData, newId)] + ipos;
      }
      isModalOpen := false;
    }

    /** `handleDelete`; `confirmed` is the answer to the confirmation prompt. */
    method Delete(id: string, confirmed: bool)
      requires Valid()
      modifies this
      ensures Valid()
      ensures ipos == if confirmed then DeleteById(old(ipos), id) else old(ipos)
      ensures isModalOpen == old(isModalOpen) && editingIpo == old(editingIpo)
      ensures formData == old(formData) && searchQuery == old(searchQuery) && error == old(error)
    {
      if confirmed {
        ipos := DeleteById(ipos, id);
      }
    }

    /** `filteredIpos`: the rows of the table. */
    function Filtered(): (r: seq<Ipo>)
      reads this
      ensures r == Search(ipos, searchQuery)
      ensures IsSubsequence(r, ipos)
      ensures forall x :: x in r ==> Matches(x, searchQuery)
      ensures forall x :: Matches(x, searchQuery) ==> multiset(r)[x] == multiset(ipos)[x]
      ensures searchQuery == "" ==> r == ipos
    {
      SearchEmptyQuery(ipos);
      Search(ipos, searchQuery)
    }
  }
}
