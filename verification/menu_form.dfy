/** The administrator's menu-item form, for a new item or for the item named in the route:
    loading the item into the form, editing it, and submitting it as multipart form data. */
module MenuForm {
  import opened Common
  import opened Text
  import opened Seqs
  import opened Domain

  /** The form's state. Every field is text as typed, except the chosen picture; `id` and
      `imageUrl` are absent until an item is loaded. */
  datatype MenuFormState = MenuFormState(
    id: Option<string>,
    name: string,
    description: string,
    price: string,
    imageFile: Option<File>,
    categoryId: string,
    imageUrl: Option<string>)

  /** The inputs `handleInputChange` serves, by their `name` attribute. */
  datatype MenuField = NameField | DescriptionField | PriceField | CategoryField

  /** Which backend call the submission makes. */
  datatype MenuRequest = CreateMenu | UpdateMenu

  const MenuListPath := "/admin/menu-items"

  /** `if (id)`: the route names an item. */
  predicate Editing(routeId: Option<string>) {
    routeId.Some? && routeId.value != ""
  }

  function InitialState(routeId: Option<string>): (s: MenuFormState)
    ensures s.id.Some? <==> Editing(routeId)
    ensures s.name == "" && s.description == "" && s.price == "" && s.categoryId == ""
    ensures s.imageFile.None? && s.imageUrl.None?
  {
    MenuFormState(if Editing(routeId) then routeId else None, "", "", "", None, "", None)
  }

  function FieldOf(s: MenuFormState, f: MenuField): string {
    match f
    case NameField => s.name
    case DescriptionField => s.description
    case PriceField => s.price
    case CategoryField => s.categoryId
  }

  /** `{ ...prev, [name]: value }`. */
  function WithField(s: MenuFormState, f: MenuField, value: string): (r: MenuFormState)
    ensures FieldOf(r, f) == value
    ensures forall g :: g != f ==> FieldOf(r, g) == FieldOf(s, g)
    ensures r.id == s.id && r.imageFile == s.imageFile && r.imageUrl == s.imageUrl
  {
    match f
    case NameField => s.(name := value)
    case DescriptionField => s.(description := value)
    case PriceField => s.(price := value)
    case CategoryField => s.(categoryId := value)
  }

  /** The conversion of a fetched item: the price and the category as the text `toString`
      gives, an empty category when there is none, no chosen picture, the current picture kept. */
  function FormStateOf(m: MenuItem): (s: MenuFormState)
    ensures s.name == m.name && s.description == m.description
    ensures ParseNumber(s.price) == Some(m.price as real / 100.0)
    ensures s.categoryId == "" <==> m.categoryId.None?
    ensures m.categoryId.Some? ==> ParseNumber(s.categoryId) == Some(m.categoryId.value as real)
    ensures s.id.Some? && ParseNumber(s.id.value) == Some(m.id as real)
    ensures s.imageFile.None? && s.imageUrl == Some(m.imageUrl)
  {
    var price := CentsText(m.price);
    var id := DecimalString(m.id);
    CentsRoundTrip(m.price);
    DecimalStringRoundTrip(m.id);
    MenuFormState(Some(id), m.name, m.description, price, None, CategoryText(m.categoryId), Some(m.imageUrl))
  }

  /** `categoryId?.toString() || ''`. */
  function CategoryText(categoryId: Option<nat>): (t: string)
    ensures t == "" <==> categoryId.None?
    ensures categoryId.Some? ==> ParseNumber(t) == Some(categoryId.value as real)
  {
    if categoryId.Some? then
      DecimalStringRoundTrip(categoryId.value);
      DecimalString(categoryId.value)
    else ""
  }

  /** A key the form may carry, with its value when it is to be sent. */
  datatype Candidate = Candidate(key: string, value: Option<FormValue>)

  function CandidateKeys(cs: seq<Candidate>): (ks: seq<string>)
    ensures |ks| == |cs|
    ensures forall i :: 0 <= i < |cs| ==> ks[i] == cs[i].key
  {
    seq(|cs|, i requires 0 <= i < |cs| => cs[i].key)
  }

  /** Appending, in order, the candidates that have a value. */
  function Appended(cs: seq<Candidate>): (r: seq<FormEntry>)
    ensures |r| <= |cs|
    ensures forall k :: k in Keys(r) ==> k in CandidateKeys(cs)
  {
    if cs == [] then []
    else
      var head := if cs[0].value.Some? then [FormEntry(cs[0].key, cs[0].value.value)] else [];
      var rest := Appended(cs[1..]);
      assert CandidateKeys(cs) == [cs[0].key] + CandidateKeys(cs[1..]);
      assert Keys(head + rest) == Keys(head) + Keys(rest);
      head + rest
  }

  /** The value of the first candidate for `key` that has one. */
  function FirstValue(cs: seq<Candidate>, key: string): Option<FormValue> {
    if cs == [] then None
    else if cs[0].key == key && cs[0].value.Some? then cs[0].value
    else FirstValue(cs[1..], key)
  }

  /** With distinct keys, a key's value is its own candidate's. */
  lemma {:induction false} FirstValueAt(cs: seq<Candidate>, i: nat)
    requires i < |cs|
    requires forall a, b :: 0 <= a < b < |cs| ==> cs[a].key != cs[b].key
    ensures FirstValue(cs, cs[i].key) == cs[i].value
  {
    if i > 0 {
      FirstValueAt(cs[1..], i - 1);
    } else if cs[0].value.None? {
      NoLaterValue(cs[1..], cs[0].key);
    }
  }

  lemma {:induction false} NoLaterValue(cs: seq<Candidate>, key: string)
    requires forall a :: 0 <= a < |cs| ==> cs[a].key != key
    ensures FirstValue(cs, key).None?
  {
    if cs != [] {
      NoLaterValue(cs[1..], key);
    }
  }

  /** Reading the appended form back gives every key's value. */
  lemma {:induction false} GetAppended(cs: seq<Candidate>, key: string)
    ensures Get(Appended(cs), key) == FirstValue(cs, key)
  {
    if cs != [] {
      var head := if cs[0].value.Some? then [FormEntry(cs[0].key, cs[0].value.value)] else [];
      GetAppend(head, Appended(cs[1..]), key);
      GetAppended(cs[1..], key);
      if cs[0].value.Some? {
        assert head[1..] == [];
      }
    }
  }

  /** With distinct keys the form keeps the candidates' order. */
  lemma {:induction false} AppendedInOrder(cs: seq<Candidate>)
    requires forall i, j :: 0 <= i < j < |cs| ==> cs[i].key != cs[j].key
    ensures IsSubsequence(Keys(Appended(cs)), CandidateKeys(cs))
  {
    if cs != [] {
      var head := if cs[0].value.Some? then [FormEntry(cs[0].key, cs[0].value.value)] else [];
      var rest := Appended(cs[1..]);
      var ks := CandidateKeys(cs);
      AppendedInOrder(cs[1..]);
      assert ks[1..] == CandidateKeys(cs[1..]);
      assert Keys(head + rest) == Keys(head) + Keys(rest);
      if cs[0].value.None? {
        assert head + rest == rest;
        if Keys(rest) != [] {
          assert Keys(rest)[0] in CandidateKeys(cs[1..]);
          assert Keys(rest)[0] != ks[0];
        }
      } else {
        assert (Keys(head) + Keys(rest))[1..] == Keys(rest);
      }
    }
  }

  /** `if (value) formData.append(key, value)` for a text field. */
  function TextIfSet(v: string): Option<FormValue> {
    if v != "" then Some(Text(v)) else None
  }

  const FormKeys := ["name", "description", "price", "imageFile", "categoryId", "id"]

  /** The fields in the order `handleSubmit` appends them, the route id last. */
  function Candidates(s: MenuFormState, routeId: Option<string>): (cs: seq<Candidate>)
    ensures CandidateKeys(cs) == FormKeys
  {
    [Candidate("name", TextIfSet(s.name)),
     Candidate("description", TextIfSet(s.description)),
     Candidate("price", TextIfSet(s.price)),
     Candidate("imageFile", if s.imageFile.Some? then Some(Blob(s.imageFile.value)) else None),
     Candidate("categoryId", TextIfSet(s.categoryId)),
     Candidate("id", if Editing(routeId) then Some(Text(routeId.value)) else None)]
  }

  lemma FormKeysDistinct()
    ensures forall i, j :: 0 <= i < j < |FormKeys| ==> FormKeys[i] != FormKeys[j]
  {
    assert FormKeys[0][0] == 'n' && FormKeys[1][0] == 'd' && FormKeys[2][0] == 'p';
    assert FormKeys[3][1] == 'm' && FormKeys[4][0] == 'c' && FormKeys[5][1] == 'd';
    assert |FormKeys[3]| == 9 && |FormKeys[5]| == 2;
  }

  /** With distinct keys, every candidate's value is what the appended data holds for its key. */
  lemma AppendedGets(cs: seq<Candidate>)
    requires forall a, b :: 0 <= a < b < |cs| ==> cs[a].key != cs[b].key
    ensures forall i :: 0 <= i < |cs| ==> Get(Appended(cs), cs[i].key) == cs[i].value
  {
    forall i | 0 <= i < |cs|
      ensures Get(Appended(cs), cs[i].key) == cs[i].value
    {
      GetAppended(cs, cs[i].key);
      FirstValueAt(cs, i);
    }
  }

  /** The form data `handleSubmit` sends. */
  function MenuFormData(s: MenuFormState, routeId: Option<string>): (entries: seq<FormEntry>)
    ensures IsSubsequence(Keys(entries), FormKeys)
    ensures Get(entries, "name") == TextIfSet(s.name)
    ensures Get(entries, "description") == TextIfSet(s.description)
    ensures Get(entries, "price") == TextIfSet(s.price)
    ensures Get(entries, "imageFile") == if s.imageFile.Some? then Some(Blob(s.imageFile.value)) else None
    ensures Get(entries, "categoryId") == TextIfSet(s.categoryId)
    ensures Get(entries, "id") == if Editing(routeId) then Some(Text(routeId.value)) else None
  {
    var cs := Candidates(s, routeId);
    FormKeysDistinct();
    AppendedInOrder(cs);
    AppendedGets(cs);
    assert cs[0].key == "name" && cs[1].key == "description" && cs[2].key == "price";
    assert cs[3].key == "imageFile" && cs[4].key == "categoryId" && cs[5].key == "id";
    Appended(cs)
  }

  /** Submitting a loaded item unchanged sends its price back as text that reads as the same
      amount, and its name whenever it has one. */
  lemma LoadedFormResends(m: MenuItem, routeId: Option<string>)
    ensures var entries := MenuFormData(FormStateOf(m), routeId);
      && (exists t :: Get(entries, "price") == Some(Text(t)) && ParseNumber(t) == Some(m.price as real / 100.0))
      && (m.name != "" ==> Get(entries, "name") == Some(Text(m.name)))
      && Get(entries, "imageFile").None?
  {
    var s := FormStateOf(m);
    assert s.price != "";
  }

  class AdminMenuFormPage {
    const routeId: Option<string>
    var menu: MenuFormState
    var isSubmitting: bool

    constructor (routeId: Option<string>)
      ensures this.routeId == routeId && menu == InitialState(routeId) && !isSubmitting
    {
      this.routeId := routeId;
      menu := InitialState(routeId);
      isSubmitting := false;
    }

    method HandleInputChange(f: MenuField, value: string)
      modifies this
      ensures menu == WithField(old(menu), f, value) && isSubmitting == old(isSubmitting)
    {
      menu := WithField(menu, f, value);
    }

    /** `handleFileChange`: the first chosen file, or none. */
    method HandleFileChange(files: seq<File>)
      modifies this
      ensures menu == old(menu).(imageFile := if files == [] then None else Some(files[0]))
      ensures isSubmitting == old(isSubmitting)
    {
      var file := if files == [] then None else Some(files[0]);
      menu := menu.(imageFile := file);
    }

    /** `fetchMenu`: only when the route names an item; a 200 answer loads the converted item,
        another answer shows its message. */
    method FetchMenu(reply: Call<MenuItem>) returns (fx: Effects)
      requires WellFormed(reply)
      modifies this
      ensures isSubmitting == old(isSubmitting)
      ensures fx.sent == Editing(routeId) && fx.navigation.None?
      ensures !Editing(routeId) ==> menu == old(menu) && fx == Quiet
      ensures Editing(routeId) && reply.Returned? && IsOk(reply.response) ==>
        menu == FormStateOf(reply.response.data.value) && fx.shown.None?
      ensures Editing(routeId) && reply.Returned? && !IsOk(reply.response) ==>
        menu == old(menu) && fx.shown == Some(reply.response.message.GetOr(""))
      ensures Editing(routeId) && reply.Threw? ==> menu == old(menu) && fx.shown == Some(Caught(reply.failure, ""))
    {
      if !Editing(routeId) {
        return Quiet;
      }
      match reply
      case Threw(failure) =>
        fx := Effects(Some(Caught(failure, "")), None, true);
      case Returned(response) =>
        if IsOk(response) {
          menu := FormStateOf(response.data.value);
          fx := Effects(None, None, true);
        } else {
          fx := Effects(Some(response.message.GetOr("")), None, true);
        }
    }

    /** The first half of `handleSubmit`, up to the request: the page is marked as submitting
        and the form data is appended field by field. */
    method StartSubmit() returns (sent: seq<FormEntry>, request: MenuRequest)
      modifies this
      ensures isSubmitting && menu == old(menu)
      ensures sent == MenuFormData(menu, routeId)
      ensures request == if Editing(routeId) then UpdateMenu else CreateMenu
    {
      isSubmitting := true;
      var candidates := Candidates(menu, routeId);
      sent := [];
      var i := 0;
      while i < |candidates|
        invariant 0 <= i <= |candidates|
        invariant sent == Appended(candidates[..i])
        invariant isSubmitting && menu == old(menu)
      {
        var c := candidates[i];
        if c.value.Some? {
          sent := sent + [FormEntry(c.key, c.value.value)];
        }
        AppendedStep(candidates, i);
        i := i + 1;
      }
      assert candidates[..i] == candidates;
      request := if Editing(routeId) then UpdateMenu else CreateMenu;
    }

    /** The second half, once the request settles: the `finally` clears the flag on every path,
        and only a 200 answer leaves for the menu list. */
    method FinishSubmit(reply: Call<()>) returns (fx: Effects)
      requires isSubmitting
      modifies this
      ensures !isSubmitting && menu == old(menu)
      ensures fx.sent
      ensures fx.navigation == Some(GoTo(MenuListPath)) <==> reply.Returned? && IsOk(reply.response)
      ensures fx.navigation.None? || fx.navigation == Some(GoTo(MenuListPath))
      ensures reply.Returned? ==> fx.shown.None?
      ensures reply.Threw? ==> fx.shown == Some(Caught(reply.failure, ""))
    {
      match reply {
        case Threw(failure) =>
          fx := Effects(Some(Caught(failure, "")), None, true);
        case Returned(response) =>
          fx := Effects(None, if IsOk(response) then Some(GoTo(MenuListPath)) else None, true);
      }
      isSubmitting := false;
    }
  }

  /** One more candidate appended: the form grows by that candidate's entry, if it has a value. */
  lemma {:induction false} AppendedStep(cs: seq<Candidate>, i: nat)
    requires i < |cs|
    ensures Appended(cs[..i + 1]) ==
      Appended(cs[..i]) + (if cs[i].value.Some? then [FormEntry(cs[i].key, cs[i].value.value)] else [])
    decreases i
  {
    if i > 0 {
      var tail := cs[1..];
      AppendedStep(tail, i - 1);
      assert cs[..i + 1][1..] == tail[..i];
      assert cs[..i][1..] == tail[..i - 1];
    } else {
      assert cs[..1][1..] == [];
    }
  }
}
