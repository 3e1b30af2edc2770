/** How the contact form's client-side schema
    (frontend/src/domain/contact/utils/validation.ts) relates to the server's
    chain (backend/src/api/v1/external/contact/controller.ts): the client is
    stricter on the phone number, but lets through blank ids, models and
    messages the server refuses, and the two e-mail tests are different. */
module ContactAgreement {
  import opened Wrappers
  import opened Text
  import opened ContactTypes
  import opened ContactSchema
  import opened ContactController
  import opened FirstFailure

  /** The body the form posts: every field as filled in. */
  function BodyOf(form: ContactForm): ContactBody {
    ContactBody(Some(form.nomeCompleto), Some(form.email), Some(form.telefone),
      Some(form.preferenciaContato), form.melhorHorario, Some(form.idVeiculo),
      Some(form.modeloVeiculo), Some(form.assunto), Some(form.mensagem),
      form.financiamento, Some(form.termosPrivacidade), form.receberNovidades)
  }

  /** A string of white space holds no digit. */
  lemma {:induction false} WhitespaceHasNoDigits(s: string)
    requires AllWhitespace(s)
    ensures Digits(s) == []
  {
    if s != [] {
      WhitespaceHasNoDigits(s[1..]);
    }
  }

  /** A string that holds some character other than white space is not
      blank. */
  lemma NotBlank(s: string, i: nat)
    requires i < |s| && !IsWhitespace(s[i])
    ensures !Blank(Some(s))
  {
    TrimEmptyIff(s);
  }

  /** None of the fixed choices is blank. */
  lemma ChoicesNotBlank(x: string)
    requires x in ContactPreferences || x in Subjects
    ensures !Blank(Some(x))
  {
    assert |x| > 0 && !IsWhitespace(x[0]);
    NotBlank(x, 0);
  }

  /** A name the form accepts is not blank. */
  lemma NameNotBlank(n: string)
    requires NameOk(n)
    ensures !Blank(Some(n))
  {
  }

  /** An address the server's pattern accepts is not blank. */
  lemma EmailNotBlank(e: string)
    requires EmailValid(e)
    ensures !Blank(Some(e))
  {
    var k :| 0 < k < |e| && e[k] == '@' && EmailPart(e[..k]) && EmailDomain(e[k + 1..]);
    NotBlank(e, k);
  }

  /** A phone number with digits in it is not blank. */
  lemma PhoneNotBlank(t: string)
    requires |Digits(t)| > 0
    ensures !Blank(Some(t))
  {
    if Blank(Some(t)) {
      TrimEmptyIff(t);
      WhitespaceHasNoDigits(t);
    }
  }

  /** The presence checks the form's rules already imply. */
  lemma ClientFieldsPresent(form: ContactForm, isEmail: string -> bool)
    requires FormOk(form, isEmail)
    requires EmailValid(form.email)
    ensures !Blank(Some(form.nomeCompleto)) && !Blank(Some(form.email)) && !Blank(Some(form.telefone))
    ensures !Blank(Some(form.preferenciaContato)) && !Blank(Some(form.assunto))
    ensures |Digits(form.telefone)| >= 10
  {
    NameNotBlank(form.nomeCompleto);
    EmailNotBlank(form.email);
    ClientPhoneHasTenDigits(form.telefone);
    PhoneNotBlank(form.telefone);
    ChoicesNotBlank(form.preferenciaContato);
    ChoicesNotBlank(form.assunto);
  }

  lemma RequiredPass(b: ContactBody)
    requires !Blank(b.nomeCompleto) && !Blank(b.email) && !Blank(b.telefone)
    requires !Blank(b.preferenciaContato) && !Blank(b.idVeiculo) && !Blank(b.modeloVeiculo)
    requires !Blank(b.assunto) && !Blank(b.mensagem) && b.termosPrivacidade == Some(true)
    ensures RequiredOf(b).Success? && RequiredChoicesOf(b).Success? && RequiredMessageOf(b).Success?
  {
  }

  lemma NamePasses(b: ContactBody)
    requires 3 <= |Given(b.nomeCompleto)| <= 100 && SplitOnWhitespaceCount(Trim(Given(b.nomeCompleto))) >= 2
    ensures NameOf(b).Success?
  {
    var n := Given(b.nomeCompleto);
    assert !(|n| < 3) && !(|n| > 100) && !(SplitOnWhitespaceCount(Trim(n)) < 2);
  }

  lemma AddressPasses(b: ContactBody)
    requires EmailValid(Given(b.email)) && |Given(b.email)| <= 100 && |Digits(Given(b.telefone))| >= 10
    ensures AddressOf(b).Success?
  {
  }

  lemma ChoicesPass(b: ContactBody)
    requires Given(b.preferenciaContato) in ContactPreferences && Given(b.assunto) in Subjects
    requires !Truthy(b.melhorHorario) || b.melhorHorario.value in BestTimes
    ensures ChoicesOf(b).Success?
  {
  }

  lemma MessagePasses(b: ContactBody)
    requires 10 <= |Given(b.mensagem)| <= 1000
    ensures MessageOf(b).Success?
  {
  }

  /** The chain passes when each of its groups does. */
  lemma AllGroupsPass(b: ContactBody)
    requires RequiredOf(b).Success? && RequiredChoicesOf(b).Success? && RequiredMessageOf(b).Success?
    requires NameOf(b).Success? && AddressOf(b).Success? && ChoicesOf(b).Success? && MessageOf(b).Success?
    ensures Validate(b).Success?
  {
    var p := Then(RequiredOf(b), Then(RequiredChoicesOf(b), RequiredMessageOf(b)));
    var f := Then(NameOf(b), Then(AddressOf(b), Then(ChoicesOf(b), MessageOf(b))));
    assert p.Success? && f.Success?;
  }

  /** The facts about a form that decide every group of the server's
      chain: each group of checks passes on its body. */
  lemma GroupsPass(form: ContactForm)
    requires !Blank(Some(form.nomeCompleto)) && !Blank(Some(form.email)) && !Blank(Some(form.telefone))
    requires !Blank(Some(form.preferenciaContato)) && !Blank(Some(form.assunto))
    requires !Blank(Some(form.idVeiculo)) && !Blank(Some(form.modeloVeiculo)) && !Blank(Some(form.mensagem))
    requires form.termosPrivacidade
    requires 3 <= |form.nomeCompleto| <= 100 && SplitOnWhitespaceCount(Trim(form.nomeCompleto)) >= 2
    requires EmailValid(form.email) && |form.email| <= 100 && |Digits(form.telefone)| >= 10
    requires form.preferenciaContato in ContactPreferences && form.assunto in Subjects
    requires form.melhorHorario.None? || form.melhorHorario.value in BestTimes
    requires 10 <= |form.mensagem| <= 1000
    ensures Validate(BodyOf(form)).Success?
  {
    var b := BodyOf(form);
    RequiredPass(b);
    NamePasses(b);
    AddressPasses(b);
    ChoicesPass(b);
    MessagePasses(b);
    AllGroupsPass(b);
  }

  /** A form the schema accepts is accepted by the server as well, as long
      as its address also passes the server's pattern and the vehicle id,
      the model and the message are not only white space. */
  lemma ServerAcceptsClientForm(form: ContactForm, isEmail: string -> bool,
                                ip: Option<string>, remoteAddress: Option<string>)
    requires Issues(form, isEmail) == []
    requires EmailValid(form.email)
    requires !Blank(Some(form.idVeiculo)) && !Blank(Some(form.modeloVeiculo)) && !Blank(Some(form.mensagem))
    ensures PostHandler(BodyOf(form), ip, remoteAddress).Success?
  {
    AcceptedIffAllRules(form, isEmail);
    ClientFieldsPresent(form, isEmail);
    GroupsPass(form);
  }

  /** The schema asks only for a non-empty vehicle id: one made of white
      space passes it, and the server then refuses the form for it. */
  lemma BlankVehicleIdRefused(form: ContactForm, isEmail: string -> bool,
                              ip: Option<string>, remoteAddress: Option<string>)
    requires Issues(form, isEmail) == []
    requires EmailValid(form.email)
    requires Blank(Some(form.idVeiculo))
    ensures PostHandler(BodyOf(form), ip, remoteAddress) == Failure(IdVeiculoRequired)
  {
    AcceptedIffAllRules(form, isEmail);
    ClientFieldsPresent(form, isEmail);
    VehicleIdRequiredFirst(BodyOf(form));
  }

  /** With the first three fields and the contact preference present, a
      blank vehicle id is what the chain refuses. */
  lemma VehicleIdRequiredFirst(b: ContactBody)
    requires !Blank(b.nomeCompleto) && !Blank(b.email) && !Blank(b.telefone)
    requires !Blank(b.preferenciaContato) && Blank(b.idVeiculo)
    ensures Validate(b) == Failure(IdVeiculoRequired)
  {
    assert RequiredOf(b).Success?;
    assert RequiredChoicesOf(b) == Failure(IdVeiculoRequired);
    var required := Then(RequiredOf(b), Then(RequiredChoicesOf(b), RequiredMessageOf(b)));
    assert required == Failure(IdVeiculoRequired);
    FailureStops(required, Then(NameOf(b), Then(AddressOf(b), Then(ChoicesOf(b), MessageOf(b)))));
  }

  lemma FailureStops(a: Result<(), ContactError>, rest: Result<(), ContactError>)
    requires a.Failure?
    ensures Then(a, rest) == a
  {
  }
}
