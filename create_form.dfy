/** The vehicle create page (`CadastroVeiculo`): the form record, the photo list, the
    handlers that update them, and the multipart body that submission builds. */
module CreateForm {
  import opened Basics
  import opened KmFormat

  /** Photos allowed in the list, and photos needed to submit. */
  const MaxFotos := 15
  const MinFotos := 3

  /** A form field holds a text, a checkbox state, or (for `opcionais`) a list of options. */
  datatype Value = Str(s: string) | Bool(b: bool) | List(items: seq<string>)

  /** What a form control reports: a checkbox state or the typed text. */
  datatype InputEvent = Checkbox(checked: bool) | Typed(value: string)

  /** One part of the multipart body: a text part, the price (whose decimal rendering is
      floating point and not modelled, so the part carries the cents text it is computed
      from), or a photo file. */
  datatype Part = Text(text: string) | PriceFromCents(cents: string) | Blob(file: File)

  /** `submitData.append(key, part)`. */
  datatype Entry = Entry(key: string, part: Part)

  /** The keys of the form record in the order of its initial literal, which is the order
      `Object.keys` returns them in; no handler adds or removes a key. */
  const FieldOrder: seq<string> := [
    "tipo_veiculo", "cilindradas", "marca", "modelo", "versao", "ano_modelo",
    "ano_fabricacao", "final_placa", "quilometragem", "quilometragem_display",
    "combustivel", "cambio", "cor", "cor_outro", "estado", "unico_dono", "ipva_pago",
    "licenciado", "aceita_troca", "tem_garantia_fabrica", "validade_garantia",
    "tem_historico_manutencao", "detalhes_manutencao", "preco", "preco_display",
    "opcionais", "tem_outros_opcionais", "outros_opcionais"]

  const FieldSet: set<string> := set k | k in FieldOrder

  /** Keys the submission never sends. */
  const NotSent: set<string> :=
    {"cor_outro", "tem_outros_opcionais", "quilometragem_display", "preco_display"}

  /** The form as the page first shows it (and as it is reset after a successful submit). */
  function InitialForm(): (m: map<string, Value>)
    ensures m.Keys == FieldSet
    ensures m["opcionais"] == List([]) && m["cor"] == Str("Branco")
  {
    map[
      "tipo_veiculo" := Str("Carro"), "cilindradas" := Str(""), "marca" := Str(""),
      "modelo" := Str(""), "versao" := Str(""), "ano_modelo" := Str(""),
      "ano_fabricacao" := Str(""), "final_placa" := Str(""), "quilometragem" := Str(""),
      "quilometragem_display" := Str(""), "combustivel" := Str("Flex"),
      "cambio" := Str("Manual"), "cor" := Str("Branco"), "cor_outro" := Str(""),
      "estado" := Str("Usado"), "unico_dono" := Str("false"), "ipva_pago" := Str("false"),
      "licenciado" := Str("false"), "aceita_troca" := Str("false"),
      "tem_garantia_fabrica" := Bool(false), "validade_garantia" := Str(""),
      "tem_historico_manutencao" := Bool(false), "detalhes_manutencao" := Str(""),
      "preco" := Str(""), "preco_display" := Str(""), "opcionais" := List([]),
      "tem_outros_opcionais" := Bool(false), "outros_opcionais" := Str("")]
  }

  /** `handleChange`: a checkbox stores its state, any other control its text. */
  function ValueOf(input: InputEvent): (v: Value)
    ensures v.Bool? <==> input.Checkbox?
    ensures v.Bool? ==> v.b == input.checked
    ensures v.Str? ==> v.s == input.value
    ensures !v.List?
  {
    match input
    case Checkbox(checked) => Bool(checked)
    case Typed(value) => Str(value)
  }

  // ---------------------------------------------------------------------------------------
  // Options toggle

  /** `list.filter(o => o !== x)`. */
  function Without(l: seq<string>, x: string): (r: seq<string>)
    ensures x !in r
    ensures forall y :: y != x ==> (y in r <==> y in l)
    ensures |r| <= |l|
  {
    if l == [] then []
    else if l[0] == x then Without(l[1..], x)
    else [l[0]] + Without(l[1..], x)
  }

  /** The update of `handleOpcionaisChange`: remove every occurrence of a present option,
      append an absent one at the end. */
  function Toggle(l: seq<string>, o: string): (r: seq<string>)
    ensures o in r <==> o !in l
  {
    if o in l then Without(l, o) else l + [o]
  }

  lemma {:induction false} WithoutConcat(a: seq<string>, b: seq<string>, x: string)
    ensures Without(a + b, x) == Without(a, x) + Without(b, x)
    decreases |a|
  {
    if a == [] {
      assert a + b == b;
    } else {
      assert (a + b)[0] == a[0];
      assert (a + b)[1..] == a[1..] + b;
      WithoutConcat(a[1..], b, x);
    }
  }

  lemma {:induction false} WithoutAbsent(l: seq<string>, x: string)
    requires x !in l
    ensures Without(l, x) == l
    decreases |l|
  {
    if l != [] {
      assert l[0] in l;
      assert forall y :: y in l[1..] ==> y in l;
      WithoutAbsent(l[1..], x);
    }
  }

  /** Toggling leaves the other options, and their relative order, exactly as they were. */
  lemma ToggleKeepsOthers(l: seq<string>, o: string)
    ensures Without(Toggle(l, o), o) == Without(l, o)
  {
    if o in l {
      WithoutAbsent(Without(l, o), o);
    } else {
      WithoutConcat(l, [o], o);
      assert [o][1..] == [];
    }
  }

  /** Toggling an absent option twice restores the list; toggling a present one twice
      removes its duplicates and moves it to the end. */
  lemma ToggleTwice(l: seq<string>, o: string)
    ensures o !in l ==> Toggle(Toggle(l, o), o) == l
    ensures o in l ==> Toggle(Toggle(l, o), o) == Without(l, o) + [o]
  {
    if o !in l {
      WithoutConcat(l, [o], o);
      assert [o][1..] == [];
      WithoutAbsent(l, o);
    }
  }

  // ---------------------------------------------------------------------------------------
  // Photo removal

  /** `list.filter((_, i) => i !== index)`, where `from` is the position of `l[0]` in the
      list being filtered. */
  function FilterIndex<T>(l: seq<T>, index: int, from: int): (r: seq<T>)
    ensures |r| == if from <= index < from + |l| then |l| - 1 else |l|
    decreases |l|
  {
    if l == [] then []
    else (if from == index then [] else [l[0]]) + FilterIndex(l[1..], index, from + 1)
  }

  /** `removerFoto`'s update: the list without the element at `index`. */
  function DropIndex<T>(l: seq<T>, index: int): (r: seq<T>)
    ensures |r| == (if 0 <= index < |l| then |l| - 1 else |l|)
  {
    FilterIndex(l, index, 0)
  }

  lemma {:induction false} FilterIndexSplice<T>(l: seq<T>, index: int, from: int)
    ensures FilterIndex(l, index, from) ==
      if from <= index < from + |l| then l[..index - from] + l[index - from + 1..] else l
    decreases |l|
  {
    if l != [] {
      FilterIndexSplice(l[1..], index, from + 1);
      if from == index {
        assert l[index - from + 1..] == l[1..];
      } else if from < index < from + |l| {
        assert l[..index - from] == [l[0]] + l[1..][..index - from - 1];
        assert l[index - from + 1..] == l[1..][index - from..];
      } else {
        assert l == [l[0]] + l[1..];
      }
    }
  }

  /** Removing a photo removes only the element at that index and keeps the others in
      order; an index outside the list removes nothing. */
  lemma DropIndexSpec<T>(l: seq<T>, index: int)
    ensures 0 <= index < |l| ==> DropIndex(l, index) == l[..index] + l[index + 1..]
    ensures 0 <= index < |l| ==> |DropIndex(l, index)| == |l| - 1
    ensures !(0 <= index < |l|) ==> DropIndex(l, index) == l
  {
    FilterIndexSplice(l, index, 0);
  }

  // ---------------------------------------------------------------------------------------
  // Serialisation

  /** `Array.prototype.join` with separator `sep`. */
  function Join(items: seq<string>, sep: string): (r: string)
  {
    if items == [] then ""
    else if |items| == 1 then items[0]
    else items[0] + sep + Join(items[1..], sep)
  }

  function HexDigit(n: int): (c: char)
    requires 0 <= n < 16
  {
    if n < 10 then ('0' as int + n) as char else ('a' as int + n - 10) as char
  }

  /** How `JSON.stringify` writes one character inside a string literal. */
  function JsonEscapeChar(c: char): (r: string)
    ensures 1 <= |r| <= 6
    ensures |r| == 1 <==> JsonPlain(c)
    ensures |r| == 1 ==> r == [c]
    ensures |r| > 1 ==> r[0] == '\\'
  {
    if c == '"' then "\\\""
    else if c == '\\' then "\\\\"
    else if c == '\U{8}' then "\\b"
    else if c == '\U{C}' then "\\f"
    else if c == '\n' then "\\n"
    else if c == '\r' then "\\r"
    else if c == '\t' then "\\t"
    else if c < ' ' then "\\u00" + [HexDigit(c as int / 16), HexDigit(c as int % 16)]
    else [c]
  }

  function JsonEscape(s: string): (r: string)
    ensures |s| <= |r| <= 6 * |s|
    ensures '"' !in s && '\\' !in s ==> '"' !in r
  {
    if s == [] then "" else JsonEscapeChar(s[0]) + JsonEscape(s[1..])
  }

  /** `JSON.stringify` of a string. */
  function JsonQuote(s: string): (r: string)
    ensures |r| >= |s| + 2 && r[0] == '"' && r[|r| - 1] == '"'
  {
    "\"" + JsonEscape(s) + "\""
  }

  function JsonItems(items: seq<string>): (r: string)
    ensures r == [] <==> items == []
    ensures items != [] ==> r[0] == '"' && r[|r| - 1] == '"'
  {
    if items == [] then ""
    else if |items| == 1 then JsonQuote(items[0])
    else JsonQuote(items[0]) + "," + JsonItems(items[1..])
  }

  /** `JSON.stringify` of a form value. */
  function JsonOf(v: Value): (r: string)
    ensures v.List? ==> |r| >= 2 && r[0] == '[' && r[|r| - 1] == ']'
    ensures v == List([]) <==> r == "[]"
    ensures v.Str? ==> |r| >= 2 && r[0] == '"' && r[|r| - 1] == '"'
  {
    match v
    case Str(s) => JsonQuote(s)
    case Bool(b) => if b then "true" else "false"
    case List(items) => "[" + JsonItems(items) + "]"
  }

  /** A character `JSON.stringify` writes as itself. */
  predicate JsonPlain(c: char)
  {
    c != '"' && c != '\\' && c >= ' '
  }

  /** Text made of plain characters is quoted without any escape. */
  lemma {:induction false} JsonEscapePlain(s: string)
    requires forall i :: 0 <= i < |s| ==> JsonPlain(s[i])
    ensures JsonEscape(s) == s
    decreases |s|
  {
    if s != [] {
      JsonEscapePlain(s[1..]);
    }
  }

  /** The string conversion `FormData.append` applies to a value. */
  function TextOf(v: Value): (r: string)
    ensures v.Str? ==> r == v.s
    ensures v.Bool? ==> (r == "true" <==> v.b) && (r == "false" <==> !v.b)
    ensures v.List? ==> (r == [] <==> v.items == [] || v.items == [""])
  {
    match v
    case Str(s) => s
    case Bool(b) => if b then "true" else "false"
    case List(items) => Join(items, ",")
  }

  /** The colour that is sent: the free text when `Outro` was chosen. */
  function CorFinal(form: map<string, Value>): (v: Value)
    requires "cor" in form && "cor_outro" in form
    ensures v == form["cor"] || v == form["cor_outro"]
    ensures v != form["cor"] ==> form["cor"] == Str("Outro")
    ensures v == Str("Outro") ==> form["cor_outro"] == Str("Outro")
  {
    if form["cor"] == Str("Outro") then form["cor_outro"] else form["cor"]
  }

  /** What the submission appends for one key of the form. */
  function EntryFor(form: map<string, Value>, k: string): (r: seq<Entry>)
    requires k in form && "cor" in form && "cor_outro" in form
    ensures |r| <= 1
    ensures r != [] ==> r[0].key == k && !r[0].part.Blob?
    ensures r != [] ==> (r[0].part.PriceFromCents? <==> k == "preco")
  {
    if k == "opcionais" then [Entry(k, Text(JsonOf(form[k])))]
    else if k == "cor" then [Entry(k, Text(TextOf(CorFinal(form))))]
    else if k == "quilometragem" then [Entry(k, Text(TextOf(form[k])))]
    else if k == "preco" then [Entry(k, PriceFromCents(TextOf(form[k])))]
    else if k in NotSent then []
    else [Entry(k, Text(TextOf(form[k])))]
  }

  /** What the loop over `keys` appends, in order. */
  function FieldEntries(form: map<string, Value>, keys: seq<string>): (r: seq<Entry>)
    requires forall k :: k in keys ==> k in form
    requires "cor" in form && "cor_outro" in form
    ensures |r| <= |keys|
  {
    if keys == [] then []
    else FieldEntries(form, keys[..|keys| - 1]) + EntryFor(form, keys[|keys| - 1])
  }

  /** What the loop over the photos appends. */
  function PhotoEntries(fotos: seq<File>): (r: seq<Entry>)
    ensures |r| == |fotos|
    ensures forall i :: 0 <= i < |fotos| ==> r[i] == Entry("fotos", Blob(fotos[i]))
  {
    if fotos == [] then []
    else PhotoEntries(fotos[..|fotos| - 1]) + [Entry("fotos", Blob(fotos[|fotos| - 1]))]
  }

  function KeysOf(entries: seq<Entry>): (r: seq<string>)
  {
    if entries == [] then []
    else KeysOf(entries[..|entries| - 1]) + [entries[|entries| - 1].key]
  }

  /** The keys among `keys` that are sent. */
  function SentKeys(keys: seq<string>): (r: seq<string>)
  {
    if keys == [] then []
    else
      var last := keys[|keys| - 1];
      SentKeys(keys[..|keys| - 1]) + (if last in NotSent then [] else [last])
  }

  lemma {:induction false} KeysOfConcat(a: seq<Entry>, b: seq<Entry>)
    ensures KeysOf(a + b) == KeysOf(a) + KeysOf(b)
    decreases |b|
  {
    if b == [] {
      assert a + b == a;
    } else {
      assert (a + b)[..|a + b| - 1] == a + b[..|b| - 1];
      KeysOfConcat(a, b[..|b| - 1]);
    }
  }

  /** The field entries carry exactly the keys that are not in `NotSent`, in key order. */
  lemma {:induction false} FieldEntriesKeys(form: map<string, Value>, keys: seq<string>)
    requires forall k :: k in keys ==> k in form
    requires "cor" in form && "cor_outro" in form
    ensures KeysOf(FieldEntries(form, keys)) == SentKeys(keys)
    decreases |keys|
  {
    if keys != [] {
      var init := keys[..|keys| - 1];
      assert forall k :: k in init ==> k in keys;
      FieldEntriesKeys(form, init);
      KeysOfConcat(FieldEntries(form, init), EntryFor(form, keys[|keys| - 1]));
      KeysOfEntryFor(form, keys[|keys| - 1]);
    }
  }

  lemma KeysOfEntryFor(form: map<string, Value>, k: string)
    requires k in form && "cor" in form && "cor_outro" in form
    ensures KeysOf(EntryFor(form, k)) == if k in NotSent then [] else [k]
  {
    var e := EntryFor(form, k);
    if k !in NotSent {
      assert |e| == 1 && e[0].key == k;
      assert e[..0] == [];
    }
  }

  /** A key yields one entry under that key, or none when it is never sent. */
  lemma EntryForShape(form: map<string, Value>, k: string)
    requires k in form && "cor" in form && "cor_outro" in form
    ensures k in NotSent <==> EntryFor(form, k) == []
    ensures k !in NotSent ==> |EntryFor(form, k)| == 1 && EntryFor(form, k)[0].key == k
  {
  }

  /** Every field entry is the one its key calls for. */
  lemma {:induction false} FieldEntriesAreFor(form: map<string, Value>, keys: seq<string>)
    requires forall k :: k in keys ==> k in form
    requires "cor" in form && "cor_outro" in form
    ensures forall e :: e in FieldEntries(form, keys) ==>
      e.key in keys && e.key !in NotSent && EntryFor(form, e.key) == [e]
    ensures forall k :: k in keys && k !in NotSent ==> EntryFor(form, k)[0] in FieldEntries(form, keys)
    decreases |keys|
  {
    if keys != [] {
      var init := keys[..|keys| - 1];
      var last := keys[|keys| - 1];
      assert forall k :: k in init ==> k in keys;
      assert forall k :: k in keys ==> k in init || k == last;
      FieldEntriesAreFor(form, init);
      EntryForShape(form, last);
      var tail := EntryFor(form, last);
      assert FieldEntries(form, keys) == FieldEntries(form, init) + tail;
      forall e | e in tail
        ensures e.key == last && e.key !in NotSent && EntryFor(form, e.key) == [e]
      {
        assert tail == [tail[0]];
      }
    }
  }

  /** The serialised keys, for the form record: all of its keys but the four that are never
      sent, in the record's own order. */
  lemma SerializedKeys(form: map<string, Value>)
    requires FieldSet <= form.Keys
    ensures KeysOf(FieldEntries(form, FieldOrder)) == SentKeys(FieldOrder)
    ensures forall k :: k in SentKeys(FieldOrder) <==> k in FieldSet && k !in NotSent
  {
    FieldEntriesKeys(form, FieldOrder);
    SentKeysMembers(FieldOrder);
  }

  lemma {:induction false} SentKeysMembers(keys: seq<string>)
    ensures forall k :: k in SentKeys(keys) <==> k in keys && k !in NotSent
    decreases |keys|
  {
    if keys != [] {
      var init := keys[..|keys| - 1];
      SentKeysMembers(init);
      assert forall k :: k in keys <==> k in init || k == keys[|keys| - 1];
    }
  }

  /** `cor` is sent once, carrying the free-text colour exactly when `Outro` was chosen;
      `cor_outro` itself is never sent. */
  lemma CorSent(form: map<string, Value>)
    requires FieldSet <= form.Keys
    ensures Entry("cor", Text(TextOf(
      if form["cor"] == Str("Outro") then form["cor_outro"] else form["cor"])))
      in FieldEntries(form, FieldOrder)
    ensures forall e :: e in FieldEntries(form, FieldOrder) && e.key == "cor" ==>
      e.part == Text(TextOf(if form["cor"] == Str("Outro") then form["cor_outro"] else form["cor"]))
    ensures forall e :: e in FieldEntries(form, FieldOrder) ==> e.key !in NotSent
  {
    assert "cor" in FieldOrder;
    FieldEntriesAreFor(form, FieldOrder);
  }

  lemma FieldEntriesStep(form: map<string, Value>, keys: seq<string>, i: nat)
    requires i < |keys|
    requires forall k :: k in keys ==> k in form
    requires "cor" in form && "cor_outro" in form
    ensures FieldEntries(form, keys[..i + 1]) == FieldEntries(form, keys[..i]) + EntryFor(form, keys[i])
  {
    assert keys[..i + 1][..i] == keys[..i];
  }

  /** Every key of `Object.keys(formData)` is a key of the form record. */
  lemma FieldOrderInForm(form: map<string, Value>)
    requires FieldSet <= form.Keys
    ensures forall k :: k in FieldOrder ==> k in form
    ensures "cor" in form && "cor_outro" in form
  {
  }

  /** The body built by `handleSubmit`: one entry per sent key, in key order, then one
      `fotos` entry per photo, in list order. */
  method Serialize(form: map<string, Value>, fotos: seq<File>) returns (entries: seq<Entry>)
    requires FieldSet <= form.Keys
    ensures entries == FieldEntries(form, FieldOrder) + PhotoEntries(fotos)
    ensures |entries| == |FieldEntries(form, FieldOrder)| + |fotos|
  {
    FieldOrderInForm(form);
    var keys := FieldOrder;
    entries := [];
    var i := 0;
    while i < |keys|
      invariant 0 <= i <= |keys|
      invariant entries == FieldEntries(form, keys[..i])
    {
      assert keys[i] in form;
      FieldEntriesStep(form, keys, i);
      entries := entries + EntryFor(form, keys[i]);
      i := i + 1;
    }
    assert keys[..i] == keys;
    ghost var fields := entries;
    var j := 0;
    while j < |fotos|
      invariant 0 <= j <= |fotos|
      invariant entries == fields + PhotoEntries(fotos[..j])
    {
      assert fotos[..j + 1][..j] == fotos[..j];
      entries := entries + [Entry("fotos", Blob(fotos[j]))];
      j := j + 1;
    }
    assert fotos[..j] == fotos;
  }

  // ---------------------------------------------------------------------------------------
  // The page state

  /** The component's state: the form record and the photo list (the preview images are
      not modelled). */
  class CreatePage {
    var formData: map<string, Value>
    var fotos: seq<File>

    /** Every key of the record is present, the options field is a list, and the photo
        list never exceeds the cap. */
    ghost predicate Valid()
      reads this
    {
      formData.Keys == FieldSet && formData["opcionais"].List? && |fotos| <= MaxFotos
    }

    constructor ()
      ensures Valid()
      ensures formData == InitialForm() && fotos == []
    {
      formData := InitialForm();
      fotos := [];
    }

    /** `handleChange`: stores what the control reports under its name. */
    method HandleChange(name: string, input: InputEvent)
      requires Valid() && name in FieldSet && name != "opcionais"
      modifies this
      ensures Valid()
      ensures formData == old(formData)[name := ValueOf(input)] && fotos == old(fotos)
    {
      formData := formData[name := ValueOf(input)];
    }

    /** `handleKmChange`: the stored mileage is the typed digits, the displayed one the
        same digits grouped; afterwards unformatting the display gives the stored value. */
    method HandleKmChange(value: string)
      requires Valid()
      modifies this
      ensures Valid() && fotos == old(fotos)
      ensures formData["quilometragem"] == Str(UnformatNumber(value))
      ensures formData["quilometragem_display"] == Str(FormatKm(value))
      ensures UnformatNumber(formData["quilometragem_display"].s) == formData["quilometragem"].s
      ensures forall k :: k in formData && k != "quilometragem" && k != "quilometragem_display" ==>
        formData[k] == old(formData)[k]
    {
      var unformatted := UnformatNumber(value);
      var formatted := FormatKm(value);
      formData := formData["quilometragem" := Str(unformatted)]
                          ["quilometragem_display" := Str(formatted)];
      UnformatFormatKm(value);
    }

    /** `handlePrecoChange`: the stored price is the typed digits (cents); `display` is the
        locale-formatted text of the same digits, which is not modelled. */
    method HandlePrecoChange(value: string, display: string)
      requires Valid()
      modifies this
      ensures Valid() && fotos == old(fotos)
      ensures formData["preco"] == Str(UnformatNumber(value))
      ensures formData["preco_display"] == Str(display)
      ensures forall k :: k in formData && k != "preco" && k != "preco_display" ==>
        formData[k] == old(formData)[k]
    {
      formData := formData["preco" := Str(UnformatNumber(value))]["preco_display" := Str(display)];
    }

    /** `handleOpcionaisChange`: flips whether `o` is selected. */
    method HandleOpcionaisChange(o: string)
      requires Valid()
      modifies this
      ensures Valid() && fotos == old(fotos)
      ensures formData == old(formData)["opcionais" := List(Toggle(old(formData)["opcionais"].items, o))]
      ensures o in formData["opcionais"].items <==> o !in old(formData)["opcionais"].items
    {
      var opcionais := Toggle(formData["opcionais"].items, o);
      formData := formData["opcionais" := List(opcionais)];
    }

    /** `handleFotosChange`: a batch that would take the list past the cap is refused whole;
        otherwise every file is appended in order. */
    method HandleFotosChange(files: seq<File>) returns (accepted: bool)
      requires Valid()
      modifies this
      ensures Valid() && formData == old(formData)
      ensures accepted <==> |old(fotos)| + |files| <= MaxFotos
      ensures fotos == if accepted then old(fotos) + files else old(fotos)
    {
      if |fotos| + |files| > MaxFotos {
        return false;
      }
      fotos := fotos + files;
      accepted := true;
    }

    /** `handleCameraCapture`: no file does nothing; a full list refuses the capture;
        otherwise the file is appended. */
    method HandleCameraCapture(file: Option<File>) returns (accepted: bool)
      requires Valid()
      modifies this
      ensures Valid() && formData == old(formData)
      ensures accepted <==> file.Some? && |old(fotos)| < MaxFotos
      ensures fotos == if accepted then old(fotos) + [file.value] else old(fotos)
    {
      if file.None? {
        return false;
      }
      if |fotos| >= MaxFotos {
        return false;
      }
      fotos := fotos + [file.value];
      accepted := true;
    }

    /** `removerFoto`: drops the photo at `index`, keeping the others in order. */
    method RemoverFoto(index: int)
      requires Valid()
      modifies this
      ensures Valid() && formData == old(formData)
      ensures fotos == DropIndex(old(fotos), index)
      ensures 0 <= index < |old(fotos)| ==> fotos == old(fotos)[..index] + old(fotos)[index + 1..]
      ensures !(0 <= index < |old(fotos)|) ==> fotos == old(fotos)
    {
      DropIndexSpec(fotos, index);
      fotos := DropIndex(fotos, index);
    }

    /** `handleSubmit`: with fewer than three photos nothing is sent; otherwise the body is
        built and posted (`posted` is whether the request succeeded), and a success resets
        the form. */
    method HandleSubmit(posted: bool) returns (request: Option<seq<Entry>>)
      requires Valid()
      modifies this
      ensures Valid()
      ensures |old(fotos)| < MinFotos ==> request == None
      ensures |old(fotos)| >= MinFotos ==>
        request == Some(FieldEntries(old(formData), FieldOrder) + PhotoEntries(old(fotos)))
      ensures if request.Some? && posted then formData == InitialForm() && fotos == []
              else formData == old(formData) && fotos == old(fotos)
    {
      if |fotos| < MinFotos {
        return None;
      }
      var entries := Serialize(formData, fotos);
      request := Some(entries);
      if posted {
        var reset := InitialForm();
        assert reset.Keys == FieldSet && reset["opcionais"].List?;
        formData := reset;
        fotos := [];
      }
    }
  }
}
