/** The HTTP handler of the contact form
    (backend/src/api/v1/external/contact/controller.ts): the body of the
    request goes through a fixed chain of checks, the first failed check
    answers 400 with its error code, and a body that passes them all is
    completed with defaults and handed to the recorder, answering 201. */
module ContactController {
  import opened Wrappers
  import opened Text
  import opened ContactTypes
  import opened FirstFailure
  import opened ContactLogic

  /** The JSON body of a submission: `None` is a missing (or `null`)
      field. */
  datatype ContactBody = ContactBody(
    nomeCompleto: Option<string>,
    email: Option<string>,
    telefone: Option<string>,
    preferenciaContato: Option<string>,
    melhorHorario: Option<string>,
    idVeiculo: Option<string>,
    modeloVeiculo: Option<string>,
    assunto: Option<string>,
    mensagem: Option<string>,
    financiamento: Option<bool>,
    termosPrivacidade: Option<bool>,
    receberNovidades: Option<bool>)

  datatype ContactError =
    | NomeCompletoRequired
    | EmailRequired
    | TelefoneRequired
    | PreferenciaContatoRequired
    | IdVeiculoRequired
    | ModeloVeiculoRequired
    | AssuntoRequired
    | MensagemRequired
    | TermosPrivacidadeRequired
    | NomeDeveConterPeloMenos3Caracteres
    | NomeDeveConterNoMaximo100Caracteres
    | NomeDeveConterNomeESobrenome
    | EmailInvalido
    | EmailDeveConterNoMaximo100Caracteres
    | TelefoneDeveConterPeloMenos10Digitos
    | PreferenciaContatoInvalida
    | MelhorHorarioInvalido
    | AssuntoInvalido
    | MensagemDeveConterPeloMenos10Caracteres
    | MensagemDeveConterNoMaximo1000Caracteres

  /** The error code sent with the 400 answer. */
  function ErrorCode(e: ContactError): string {
    match e
    case NomeCompletoRequired => "nomeCompletoRequired"
    case EmailRequired => "emailRequired"
    case TelefoneRequired => "telefoneRequired"
    case PreferenciaContatoRequired => "preferenciaContatoRequired"
    case IdVeiculoRequired => "idVeiculoRequired"
    case ModeloVeiculoRequired => "modeloVeiculoRequired"
    case AssuntoRequired => "assuntoRequired"
    case MensagemRequired => "mensagemRequired"
    case TermosPrivacidadeRequired => "termosPrivacidadeRequired"
    case NomeDeveConterPeloMenos3Caracteres => "nomeDeveConterPeloMenos3Caracteres"
    case NomeDeveConterNoMaximo100Caracteres => "nomeDeveConterNoMaximo100Caracteres"
    case NomeDeveConterNomeESobrenome => "nomeDeveConterNomeESobrenome"
    case EmailInvalido => "emailInvalido"
    case EmailDeveConterNoMaximo100Caracteres => "emailDeveConterNoMaximo100Caracteres"
    case TelefoneDeveConterPeloMenos10Digitos => "telefoneDeveConterPeloMenos10Digitos"
    case PreferenciaContatoInvalida => "preferenciaContatoInvalida"
    case MelhorHorarioInvalido => "melhorHorarioInvalido"
    case AssuntoInvalido => "assuntoInvalido"
    case MensagemDeveConterPeloMenos10Caracteres => "mensagemDeveConterPeloMenos10Caracteres"
    case MensagemDeveConterNoMaximo1000Caracteres => "mensagemDeveConterNoMaximo1000Caracteres"
  }

  // ------------------------------------------------------------ field tests

  /** `!v || v.trim() === ''` */
  predicate Blank(v: Option<string>) {
    v.None? || Trim(v.value) == ""
  }

  /** A JavaScript string is truthy unless it is empty. */
  predicate Truthy(v: Option<string>) {
    v.Some? && v.value != ""
  }

  /** The value of a field the earlier checks have found present. */
  function Given(v: Option<string>): string {
    v.GetOr("")
  }

  /** A character of `[^\s@]`. */
  predicate EmailChar(c: char) {
    !IsWhitespace(c) && c != '@'
  }

  /** A string `[^\s@]+` matches in full. */
  predicate EmailPart(s: string) {
    |s| > 0 && forall i :: 0 <= i < |s| ==> EmailChar(s[i])
  }

  /** `e` read as the three parts of the e-mail pattern. */
  predicate EmailSplit(e: string, a: string, b: string, c: string) {
    EmailPart(a) && EmailPart(b) && EmailPart(c) && e == a + ("@" + (b + ("." + c)))
  }

  /** The strings `/^[^\s@]+@[^\s@]+\.[^\s@]+$/` matches. */
  ghost predicate MatchesEmailPattern(e: string) {
    exists a, b, c :: EmailSplit(e, a, b, c)
  }

  /** The part after the `@`: no white space and no further `@`, and a `.`
      with a character on either side of it. */
  predicate EmailDomain(d: string) {
    && (forall i :: 0 <= i < |d| ==> EmailChar(d[i]))
    && (exists j :: 0 < j < |d| - 1 && d[j] == '.')
  }

  /** `emailRegex.test(email)`, decided by the position of the `@`. */
  predicate EmailValid(e: string) {
    exists k :: 0 < k < |e| && e[k] == '@' && EmailPart(e[..k]) && EmailDomain(e[k + 1..])
  }

  // ----------------------------------------------------------------- checks

  /** The checks of the chain in source order, as (passed, error) pairs,
      in the groups the handler's comments name. */
  function RequiredChecks(b: ContactBody): seq<(bool, ContactError)> {
    [(!Blank(b.nomeCompleto), NomeCompletoRequired),
     (!Blank(b.email), EmailRequired),
     (!Blank(b.telefone), TelefoneRequired)]
  }

  function RequiredChoiceChecks(b: ContactBody): seq<(bool, ContactError)> {
    [(!Blank(b.preferenciaContato), PreferenciaContatoRequired),
     (!Blank(b.idVeiculo), IdVeiculoRequired),
     (!Blank(b.modeloVeiculo), ModeloVeiculoRequired)]
  }

  function RequiredMessageChecks(b: ContactBody): seq<(bool, ContactError)> {
    [(!Blank(b.assunto), AssuntoRequired),
     (!Blank(b.mensagem), MensagemRequired),
     (b.termosPrivacidade == Some(true), TermosPrivacidadeRequired)]
  }

  function NameChecks(b: ContactBody): seq<(bool, ContactError)> {
    var n := Given(b.nomeCompleto);
    [(|n| >= 3, NomeDeveConterPeloMenos3Caracteres),
     (|n| <= 100, NomeDeveConterNoMaximo100Caracteres),
     (SplitOnWhitespaceCount(Trim(n)) >= 2, NomeDeveConterNomeESobrenome)]
  }

  function AddressChecks(b: ContactBody): seq<(bool, ContactError)> {
    [(EmailValid(Given(b.email)), EmailInvalido),
     (|Given(b.email)| <= 100, EmailDeveConterNoMaximo100Caracteres),
     (|Digits(Given(b.telefone))| >= 10, TelefoneDeveConterPeloMenos10Digitos)]
  }

  function ChoiceChecks(b: ContactBody): seq<(bool, ContactError)> {
    [(Given(b.preferenciaContato) in ContactPreferences, PreferenciaContatoInvalida),
     (!Truthy(b.melhorHorario) || b.melhorHorario.value in BestTimes, MelhorHorarioInvalido),
     (Given(b.assunto) in Subjects, AssuntoInvalido)]
  }

  function MessageChecks(b: ContactBody): seq<(bool, ContactError)> {
    [(|Given(b.mensagem)| >= 10, MensagemDeveConterPeloMenos10Caracteres),
     (|Given(b.mensagem)| <= 1000, MensagemDeveConterNoMaximo1000Caracteres)]
  }

  function PresenceChecks(b: ContactBody): seq<(bool, ContactError)> {
    RequiredChecks(b) + (RequiredChoiceChecks(b) + RequiredMessageChecks(b))
  }

  function FormatChecks(b: ContactBody): seq<(bool, ContactError)> {
    NameChecks(b) + (AddressChecks(b) + (ChoiceChecks(b) + MessageChecks(b)))
  }

  /** All twenty checks, in the order the handler makes them. */
  function Checks(b: ContactBody): seq<(bool, ContactError)> {
    PresenceChecks(b) + FormatChecks(b)
  }

  // ---------------------------------------------------------- the chain

  /** The required fields, each missing or blank one refused with its own
      code. */
  function RequiredOf(b: ContactBody): Result<(), ContactError> {
    if Blank(b.nomeCompleto) then Failure(NomeCompletoRequired)
    else if Blank(b.email) then Failure(EmailRequired)
    else if Blank(b.telefone) then Failure(TelefoneRequired)
    else Success(())
  }

  function RequiredChoicesOf(b: ContactBody): Result<(), ContactError> {
    if Blank(b.preferenciaContato) then Failure(PreferenciaContatoRequired)
    else if Blank(b.idVeiculo) then Failure(IdVeiculoRequired)
    else if Blank(b.modeloVeiculo) then Failure(ModeloVeiculoRequired)
    else Success(())
  }

  /** The last two required fields, then the privacy terms, which must be
      exactly `true`. */
  function RequiredMessageOf(b: ContactBody): Result<(), ContactError> {
    if Blank(b.assunto) then Failure(AssuntoRequired)
    else if Blank(b.mensagem) then Failure(MensagemRequired)
    else if b.termosPrivacidade != Some(true) then Failure(TermosPrivacidadeRequired)
    else Success(())
  }

  /** The name: 3 to 100 characters as sent, and at least two words once
      trimmed. */
  function NameOf(b: ContactBody): Result<(), ContactError> {
    var n := Given(b.nomeCompleto);
    if |n| < 3 then Failure(NomeDeveConterPeloMenos3Caracteres)
    else if |n| > 100 then Failure(NomeDeveConterNoMaximo100Caracteres)
    else if SplitOnWhitespaceCount(Trim(n)) < 2 then Failure(NomeDeveConterNomeESobrenome)
    else Success(())
  }

  /** The e-mail address, its shape before its length, then the phone
      number's digit count. */
  function AddressOf(b: ContactBody): Result<(), ContactError> {
    if !EmailValid(Given(b.email)) then Failure(EmailInvalido)
    else if |Given(b.email)| > 100 then Failure(EmailDeveConterNoMaximo100Caracteres)
    else if |Digits(Given(b.telefone))| < 10 then Failure(TelefoneDeveConterPeloMenos10Digitos)
    else Success(())
  }

  /** The three fixed choices; the best time only when one was given. */
  function ChoicesOf(b: ContactBody): Result<(), ContactError> {
    if Given(b.preferenciaContato) !in ContactPreferences then Failure(PreferenciaContatoInvalida)
    else if Truthy(b.melhorHorario) && b.melhorHorario.value !in BestTimes then Failure(MelhorHorarioInvalido)
    else if Given(b.assunto) !in Subjects then Failure(AssuntoInvalido)
    else Success(())
  }

  function MessageOf(b: ContactBody): Result<(), ContactError> {
    var m := Given(b.mensagem);
    if |m| < 10 then Failure(MensagemDeveConterPeloMenos10Caracteres)
    else if |m| > 1000 then Failure(MensagemDeveConterNoMaximo1000Caracteres)
    else Success(())
  }

  /** The whole chain, group after group. */
  function Validate(b: ContactBody): Result<(), ContactError> {
    Then(Then(RequiredOf(b), Then(RequiredChoicesOf(b), RequiredMessageOf(b))),
         Then(NameOf(b), Then(AddressOf(b), Then(ChoicesOf(b), MessageOf(b)))))
  }

  /** `req.ip || req.socket.remoteAddress || 'unknown'`: the first
      non-empty of the two addresses, else the fixed word. */
  function ClientAddress(ip: Option<string>, remoteAddress: Option<string>): (a: string)
    ensures Truthy(ip) ==> a == ip.value
    ensures !Truthy(ip) && Truthy(remoteAddress) ==> a == remoteAddress.value
    ensures !Truthy(ip) && !Truthy(remoteAddress) ==> a == "unknown"
    ensures a != ""
  {
    if Truthy(ip) then ip.value
    else if Truthy(remoteAddress) then remoteAddress.value
    else "unknown"
  }

  /** A submission the server accepts as recorded. */
  predicate Acceptable(p: ContactCreateParams) {
    && 3 <= |p.nomeCompleto| <= 100
    && SplitOnWhitespaceCount(Trim(p.nomeCompleto)) >= 2
    && EmailValid(p.email) && |p.email| <= 100
    && |Digits(p.telefone)| >= 10
    && p.preferenciaContato in ContactPreferences
    && p.melhorHorario in BestTimes
    && Trim(p.idVeiculo) != "" && Trim(p.modeloVeiculo) != ""
    && p.assunto in Subjects
    && 10 <= |p.mensagem| <= 1000
    && p.termosPrivacidade
  }

  /** The handler: the error of the first failed check, or the parameters
      of the contact to create, with the best time, the two opt-ins and the
      client address filled in when missing. */
  function PostHandler(b: ContactBody, ip: Option<string>, remoteAddress: Option<string>)
    : (r: Result<ContactCreateParams, ContactError>)
    ensures r.Success? <==> Validate(b).Success?
    ensures r.Failure? ==> r.error == Validate(b).error
    ensures r.Success? ==>
      && b.nomeCompleto.Some? && r.value.nomeCompleto == b.nomeCompleto.value
      && b.email.Some? && r.value.email == b.email.value
      && b.telefone.Some? && r.value.telefone == b.telefone.value
      && b.mensagem.Some? && r.value.mensagem == b.mensagem.value
      && b.preferenciaContato.Some? && r.value.preferenciaContato == b.preferenciaContato.value
      && b.idVeiculo.Some? && r.value.idVeiculo == b.idVeiculo.value
      && b.modeloVeiculo.Some? && r.value.modeloVeiculo == b.modeloVeiculo.value
      && b.assunto.Some? && r.value.assunto == b.assunto.value
      && b.termosPrivacidade == Some(true) && r.value.termosPrivacidade
      && r.value.ipUsuario == ClientAddress(ip, remoteAddress)
      && r.value.melhorHorario == (if Truthy(b.melhorHorario) then b.melhorHorario.value else AnyTime)
      && r.value.financiamento == (b.financiamento == Some(true))
      && r.value.receberNovidades == (b.receberNovidades == Some(true))
  {
    match Validate(b)
    case Failure(e) => Failure(e)
    case Success(_) =>
      ValidatedPresent(b);
      Success(ContactCreateParams(
        Given(b.nomeCompleto),
        Given(b.email),
        Given(b.telefone),
        Given(b.preferenciaContato),
        if Truthy(b.melhorHorario) then b.melhorHorario.value else AnyTime,
        Given(b.idVeiculo),
        Given(b.modeloVeiculo),
        Given(b.assunto),
        Given(b.mensagem),
        b.financiamento == Some(true),
        true,
        b.receberNovidades == Some(true),
        ClientAddress(ip, remoteAddress)))
  }

  /** A body the chain lets through carries every required field and has
      the terms accepted. */
  lemma ValidatedPresent(b: ContactBody)
    requires Validate(b).Success?
    ensures b.nomeCompleto.Some? && b.email.Some? && b.telefone.Some?
    ensures b.preferenciaContato.Some? && b.idVeiculo.Some? && b.modeloVeiculo.Some?
    ensures b.assunto.Some? && b.mensagem.Some? && b.termosPrivacidade == Some(true)
  {
    ValidatedGroups(b);
  }

  /** A body the chain lets through has passed every group of checks. */
  lemma ValidatedGroups(b: ContactBody)
    requires Validate(b).Success?
    ensures RequiredOf(b).Success? && RequiredChoicesOf(b).Success? && RequiredMessageOf(b).Success?
    ensures NameOf(b).Success? && AddressOf(b).Success? && ChoicesOf(b).Success? && MessageOf(b).Success?
  {
  }

  /** The whole request: a refused body answers 400 with its error and
      leaves the store alone; an accepted one is recorded under the given
      id and answers 201 with the recorder's confirmation. */
  method Post(store: ContactStore, b: ContactBody, ip: Option<string>, remoteAddress: Option<string>,
              idContato: string, now: Moment)
    returns (status: int, answer: Result<ContactCreateResponse, ContactError>)
    requires store.Valid()
    modifies store
    ensures store.Valid()
    ensures PostHandler(b, ip, remoteAddress).Failure? ==>
      && status == 400 && answer == Failure(PostHandler(b, ip, remoteAddress).error)
      && unchanged(store)
    ensures PostHandler(b, ip, remoteAddress).Success? ==>
      && status == 201 && answer.Success?
      && answer.value.idContato == idContato
      && answer.value.protocolo == Protocol(now, old(store.protocolCounter))
      && store.protocolCounter == old(store.protocolCounter) + 1
      && store.contacts == old(store.contacts)[idContato :=
           Record(PostHandler(b, ip, remoteAddress).value, idContato, answer.value.protocolo, now)]
  {
    var checked := PostHandler(b, ip, remoteAddress);
    if checked.Failure? {
      return 400, Failure(checked.error);
    }
    var created := store.Create(checked.value, idContato, now);
    return 201, Success(created);
  }

  // ---------------------------------------------------------------- lemmas

  /** Every contact the handler passes on meets all the rules of the
      chain. */
  lemma PostAccepted(b: ContactBody, ip: Option<string>, remoteAddress: Option<string>)
    requires PostHandler(b, ip, remoteAddress).Success?
    ensures Acceptable(PostHandler(b, ip, remoteAddress).value)
  {
    ValidatedGroups(b);
  }

  lemma {:induction false} ThreeChecks(r: Result<(), ContactError>, cs: seq<(bool, ContactError)>)
    requires |cs| == 3
    requires r == (if !cs[0].0 then Failure(cs[0].1) else if !cs[1].0 then Failure(cs[1].1)
                   else if !cs[2].0 then Failure(cs[2].1) else Success(()))
    ensures RefusesAsFirstFailure(r, cs)
  {
    assert cs[0].0 ==> cs[1..][0] == cs[1];
    assert cs[0].0 && cs[1].0 ==> cs[1..][1..][0] == cs[2] && cs[1..][1..][1..] == [];
  }

  lemma PresenceFirstFailure(b: ContactBody)
    ensures RefusesAsFirstFailure(Then(RequiredOf(b), Then(RequiredChoicesOf(b), RequiredMessageOf(b))),
                                  PresenceChecks(b))
  {
    ThreeChecks(RequiredOf(b), RequiredChecks(b));
    ThreeChecks(RequiredChoicesOf(b), RequiredChoiceChecks(b));
    ThreeChecks(RequiredMessageOf(b), RequiredMessageChecks(b));
    ThenSequenced(RequiredChoicesOf(b), RequiredMessageOf(b), RequiredChoiceChecks(b), RequiredMessageChecks(b));
    ThenSequenced(RequiredOf(b), Then(RequiredChoicesOf(b), RequiredMessageOf(b)),
                  RequiredChecks(b), RequiredChoiceChecks(b) + RequiredMessageChecks(b));
  }

  lemma MessageFirstFailure(b: ContactBody)
    ensures RefusesAsFirstFailure(MessageOf(b), MessageChecks(b))
  {
    var cs := MessageChecks(b);
    assert cs[0].0 ==> cs[1..][0] == cs[1] && cs[1..][1..] == [];
  }

  lemma NameFirstFailure(b: ContactBody)
    ensures RefusesAsFirstFailure(NameOf(b), NameChecks(b))
  {
    ThreeChecks(NameOf(b), NameChecks(b));
  }

  lemma AddressFirstFailure(b: ContactBody)
    ensures RefusesAsFirstFailure(AddressOf(b), AddressChecks(b))
  {
    ThreeChecks(AddressOf(b), AddressChecks(b));
  }

  lemma ChoicesFirstFailure(b: ContactBody)
    ensures RefusesAsFirstFailure(ChoicesOf(b), ChoiceChecks(b))
  {
    ThreeChecks(ChoicesOf(b), ChoiceChecks(b));
  }

  lemma FormatFirstFailure(b: ContactBody)
    ensures RefusesAsFirstFailure(Then(NameOf(b), Then(AddressOf(b), Then(ChoicesOf(b), MessageOf(b)))),
                                  FormatChecks(b))
  {
    NameFirstFailure(b);
    AddressFirstFailure(b);
    ChoicesFirstFailure(b);
    MessageFirstFailure(b);
    ThenChain(NameOf(b), AddressOf(b), ChoicesOf(b), MessageOf(b),
              NameChecks(b), AddressChecks(b), ChoiceChecks(b), MessageChecks(b));
  }

  /** A submission is refused exactly when one of the twenty checks fails,
      and then with the error of the earliest failed one. */
  lemma PostIsFirstFailure(b: ContactBody, ip: Option<string>, remoteAddress: Option<string>)
    ensures RefusesAsFirstFailure(PostHandler(b, ip, remoteAddress), Checks(b))
  {
    PresenceFirstFailure(b);
    FormatFirstFailure(b);
    ThenSequenced(Then(RequiredOf(b), Then(RequiredChoicesOf(b), RequiredMessageOf(b))),
                  Then(NameOf(b), Then(AddressOf(b), Then(ChoicesOf(b), MessageOf(b)))),
                  PresenceChecks(b), FormatChecks(b));
  }

  /** The privacy terms are checked after every required field and before
      any format: with the fields present and the terms not accepted, the
      answer is `termosPrivacidadeRequired` whatever the fields hold. */
  lemma TermsBeforeFormats(b: ContactBody, ip: Option<string>, remoteAddress: Option<string>)
    requires !Blank(b.nomeCompleto) && !Blank(b.email) && !Blank(b.telefone)
    requires !Blank(b.preferenciaContato) && !Blank(b.idVeiculo) && !Blank(b.modeloVeiculo)
    requires !Blank(b.assunto) && !Blank(b.mensagem)
    requires b.termosPrivacidade != Some(true)
    ensures PostHandler(b, ip, remoteAddress) == Failure(TermosPrivacidadeRequired)
  {
  }

  /** The handler's e-mail test is the regular expression it names: a
      non-empty part without white space or `@`, an `@`, and a domain
      holding a `.` with such a part on either side. */
  lemma EmailValidMatchesPattern(e: string)
    ensures EmailValid(e) <==> MatchesEmailPattern(e)
  {
    if EmailValid(e) {
      EmailValidSplits(e);
    }
    if MatchesEmailPattern(e) {
      var a, b, c :| EmailSplit(e, a, b, c);
      PatternIsValid(a, b, c);
    }
  }

  lemma EmailValidSplits(e: string)
    requires EmailValid(e)
    ensures MatchesEmailPattern(e)
  {
    var k :| 0 < k < |e| && e[k] == '@' && EmailPart(e[..k]) && EmailDomain(e[k + 1..]);
    var d := e[k + 1..];
    var j :| 0 < j < |d| - 1 && d[j] == '.';
    var a, b, c := e[..k], d[..j], d[j + 1..];
    assert EmailPart(b) by {
      forall i | 0 <= i < |b| ensures EmailChar(b[i]) {
        assert b[i] == d[i];
      }
    }
    assert EmailPart(c) by {
      forall i | 0 <= i < |c| ensures EmailChar(c[i]) {
        assert c[i] == d[j + 1 + i];
      }
    }
    SplitAround(d, j);
    SplitAround(e, k);
    assert EmailSplit(e, a, b, c);
  }

  lemma PatternIsValid(a: string, b: string, c: string)
    requires EmailPart(a) && EmailPart(b) && EmailPart(c)
    ensures EmailValid(a + ("@" + (b + ("." + c))))
  {
    var d := b + ("." + c);
    var e := a + ("@" + d);
    var k := |a|;
    assert e[..k] == a && e[k] == '@' && e[k + 1..] == d;
    assert d[|b|] == '.';
    assert EmailDomain(d) by {
      forall i | 0 <= i < |d| ensures EmailChar(d[i]) {
        if i < |b| {
          assert d[i] == b[i];
        } else if i > |b| {
          assert d[i] == c[i - |b| - 1];
        }
      }
    }
  }
}
