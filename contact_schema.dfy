/** The contact form's client-side schema
    (frontend/src/domain/contact/utils/validation.ts): one rule per field,
    every failing field reported. The schema library's e-mail test is not
    part of this model and is a parameter. */
module ContactSchema {
  import opened Wrappers
  import opened Text
  import opened ContactTypes

  /** The values of the form, typed as the schema requires them. */
  datatype ContactForm = ContactForm(
    nomeCompleto: string,
    email: string,
    telefone: string,
    preferenciaContato: string,
    melhorHorario: Option<string>,
    idVeiculo: string,
    modeloVeiculo: string,
    assunto: string,
    mensagem: string,
    financiamento: Option<bool>,
    termosPrivacidade: bool,
    receberNovidades: Option<bool>)

  datatype FormField =
    | NomeCompleto | Email | Telefone | PreferenciaContato | MelhorHorario
    | IdVeiculo | ModeloVeiculo | Assunto | Mensagem | TermosPrivacidade

  /** The fields with a rule, in schema order. */
  const RuledFields: seq<FormField> :=
    [NomeCompleto, Email, Telefone, PreferenciaContato, MelhorHorario,
     IdVeiculo, ModeloVeiculo, Assunto, Mensagem, TermosPrivacidade]

  /** `val.replace(/\s/g, '')` */
  function WithoutWhitespace(s: string): string {
    if s == [] then []
    else (if IsWhitespace(s[0]) then [] else [s[0]]) + WithoutWhitespace(s[1..])
  }

  /** Dropping white space drops no digit. */
  lemma {:induction false} WithoutWhitespaceDigits(s: string)
    ensures Digits(WithoutWhitespace(s)) == Digits(s)
  {
    if s != [] {
      var head := if IsWhitespace(s[0]) then [] else [s[0]];
      WithoutWhitespaceDigits(s[1..]);
      DigitsAppend(head, WithoutWhitespace(s[1..]));
      DigitsAppend([s[0]], s[1..]);
      assert s == [s[0]] + s[1..];
    }
  }

  /** An optional character of a pattern: the next one can never match
      what follows it here, so the character is taken whenever present. */
  function SkipOptional(s: string, c: char): (r: string)
    ensures r == s || (s != [] && s[0] == c && r == s[1..])
  {
    if s != [] && s[0] == c then s[1..] else s
  }

  /** `\d{4,5}-?\d{4}$` */
  predicate PhoneTail(r: string) {
    || (AllDigits(r) && (|r| == 8 || |r| == 9))
    || ((|r| == 9 || |r| == 10) && r[|r| - 5] == '-' && AllDigits(r[..|r| - 5]) && AllDigits(r[|r| - 4..]))
  }

  /** `/^\(?\d{2}\)?\s?\d{4,5}-?\d{4}$/` */
  predicate PhonePattern(s: string) {
    var a := SkipOptional(s, '(');
    && |a| >= 2 && IsDigit(a[0]) && IsDigit(a[1])
    && var b := SkipOptional(a[2..], ')');
       var c := if b != [] && IsWhitespace(b[0]) then b[1..] else b;
       PhoneTail(c)
  }

  // ------------------------------------------------------------ field rules

  /** 3 to 100 characters, and at least two words once trimmed. */
  predicate NameOk(n: string) {
    3 <= |n| <= 100 && SplitOnWhitespaceCount(Trim(n)) >= 2
  }

  /** At least 10 characters, and the pattern once white space is gone. */
  predicate PhoneOk(t: string) {
    |t| >= 10 && PhonePattern(WithoutWhitespace(t))
  }

  predicate MessageOk(m: string) {
    10 <= |m| <= 1000
  }

  /** Whether the rule of one field holds; `isEmail` is the schema
      library's e-mail test. */
  predicate FieldOk(form: ContactForm, f: FormField, isEmail: string -> bool) {
    match f
    case NomeCompleto => NameOk(form.nomeCompleto)
    case Email => isEmail(form.email) && |form.email| <= 100
    case Telefone => PhoneOk(form.telefone)
    case PreferenciaContato => form.preferenciaContato in ContactPreferences
    case MelhorHorario => form.melhorHorario.None? || form.melhorHorario.value in BestTimes
    case IdVeiculo => |form.idVeiculo| >= 1
    case ModeloVeiculo => |form.modeloVeiculo| >= 1
    case Assunto => form.assunto in Subjects
    case Mensagem => MessageOk(form.mensagem)
    case TermosPrivacidade => form.termosPrivacidade
  }

  /** Where a field sits in the schema. */
  function FieldIndex(f: FormField): (i: nat)
    ensures i < |RuledFields| && RuledFields[i] == f
  {
    match f
    case NomeCompleto => 0
    case Email => 1
    case Telefone => 2
    case PreferenciaContato => 3
    case MelhorHorario => 4
    case IdVeiculo => 5
    case ModeloVeiculo => 6
    case Assunto => 7
    case Mensagem => 8
    case TermosPrivacidade => 9
  }

  /** The fields of a list whose rule fails, in list order. */
  function FailingFields(fields: seq<FormField>, form: ContactForm, isEmail: string -> bool): (r: seq<FormField>)
    ensures forall f :: f in r <==> f in fields && !FieldOk(form, f, isEmail)
  {
    if fields == [] then []
    else
      var rest := FailingFields(fields[1..], form, isEmail);
      assert forall f :: f in fields <==> f == fields[0] || f in fields[1..];
      (if FieldOk(form, fields[0], isEmail) then [] else [fields[0]]) + rest
  }

  /** The fields the schema reports, in schema order. */
  function Issues(form: ContactForm, isEmail: string -> bool): (r: seq<FormField>)
    ensures forall f :: f in r <==> !FieldOk(form, f, isEmail)
  {
    EveryFieldRuled();
    FailingFields(RuledFields, form, isEmail)
  }

  lemma EveryFieldRuled()
    ensures forall f :: f in RuledFields
  {
    forall f ensures f in RuledFields {
      assert RuledFields[FieldIndex(f)] == f;
    }
  }

  /** Every rule of the schema, field by field. */
  predicate FormOk(form: ContactForm, isEmail: string -> bool) {
    && NameOk(form.nomeCompleto)
    && isEmail(form.email) && |form.email| <= 100
    && PhoneOk(form.telefone)
    && form.preferenciaContato in ContactPreferences
    && (form.melhorHorario.None? || form.melhorHorario.value in BestTimes)
    && |form.idVeiculo| >= 1
    && |form.modeloVeiculo| >= 1
    && form.assunto in Subjects
    && MessageOk(form.mensagem)
    && form.termosPrivacidade
  }

  /** The schema reports nothing exactly when every rule holds. */
  lemma AcceptedIffAllRules(form: ContactForm, isEmail: string -> bool)
    ensures Issues(form, isEmail) == [] <==> FormOk(form, isEmail)
  {
    var r := Issues(form, isEmail);
    if r != [] {
      assert r[0] in r;
    }
    if r == [] {
      assert NomeCompleto !in r && Email !in r && Telefone !in r && PreferenciaContato !in r;
      assert MelhorHorario !in r && IdVeiculo !in r && ModeloVeiculo !in r && Assunto !in r;
      assert Mensagem !in r && TermosPrivacidade !in r;
    }
  }

  // ------------------------------------------------------------ phone digits

  lemma DigitsCount(a: string, b: string)
    ensures |Digits(a + b)| == |Digits(a)| + |Digits(b)|
  {
    DigitsAppend(a, b);
  }

  /** A string holds at least as many digits as any of its suffixes. */
  lemma DigitsOfSuffix(s: string, i: nat)
    requires i <= |s|
    ensures |Digits(s)| >= |Digits(s[i..])|
  {
    assert s == s[..i] + s[i..];
    DigitsCount(s[..i], s[i..]);
  }

  /** The end of a phone number holds at least eight digits. */
  lemma {:induction false} PhoneTailDigits(r: string)
    requires PhoneTail(r)
    ensures |Digits(r)| >= 8
  {
    if AllDigits(r) && (|r| == 8 || |r| == 9) {
      DigitsOfDigits(r);
    } else {
      var n := |r|;
      assert r == r[..n - 5] + ([r[n - 5]] + r[n - 4..]);
      DigitsCount(r[..n - 5], [r[n - 5]] + r[n - 4..]);
      DigitsCount([r[n - 5]], r[n - 4..]);
      DigitsOfDigits(r[..n - 5]);
      DigitsOfDigits(r[n - 4..]);
    }
  }

  /** Every phone number the pattern matches has at least ten digits. */
  lemma PhonePatternDigits(s: string)
    requires PhonePattern(s)
    ensures |Digits(s)| >= 10
  {
    var a := SkipOptional(s, '(');
    var b := SkipOptional(a[2..], ')');
    var c := if b != [] && IsWhitespace(b[0]) then b[1..] else b;
    PhoneTailDigits(c);
    DropDigits(b, c);
    DropDigits(a[2..], b);
    AreaCodeDigits(a);
    DropDigits(s, a);
  }

  /** Dropping the first character keeps at most the digits there were. */
  lemma DropDigits(s: string, r: string)
    requires r == s || (s != [] && r == s[1..])
    ensures |Digits(s)| >= |Digits(r)|
  {
    if r != s {
      DigitsOfSuffix(s, 1);
    }
  }

  /** Two leading digits count twice. */
  lemma AreaCodeDigits(a: string)
    requires |a| >= 2 && IsDigit(a[0]) && IsDigit(a[1])
    ensures |Digits(a)| == 2 + |Digits(a[2..])|
  {
    assert a == a[..2] + a[2..];
    DigitsCount(a[..2], a[2..]);
    DigitsOfDigits(a[..2]);
  }

  /** The client's phone rule is stricter than the server's: a number the
      form accepts has the ten digits the server asks for. */
  lemma ClientPhoneHasTenDigits(t: string)
    requires PhoneOk(t)
    ensures |Digits(t)| >= 10
  {
    PhonePatternDigits(WithoutWhitespace(t));
    WithoutWhitespaceDigits(t);
  }
}
