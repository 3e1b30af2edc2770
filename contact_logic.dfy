/** The contact recorder (backend/src/services/contact/contactLogic.ts): an
    in-memory map of submissions and a counter that numbers them. The clock
    and the random contact id are parameters of the operations. */
module ContactLogic {
  import opened Wrappers
  import opened Text
  import opened ContactTypes

  /** `String(n).padStart(width, '0')` */
  function Padded(n: nat, width: nat): string {
    PadStart(DecimalString(n), width, '0')
  }

  /** The protocol number of a submission: the year, the month and the day
      of the date, then the sequence number padded to five digits. */
  function Protocol(now: Moment, sequence: nat): string {
    DecimalString(now.year) + Padded(now.month, 2) + Padded(now.day, 2) + Padded(sequence, 5)
  }

  /** The confirmation text, with the protocol in it. */
  const ThanksPrefix: string := "Obrigado pelo seu contato! Seu protocolo é "
  const ThanksSuffix: string := ". Entraremos em contato em até 24 horas úteis."

  function Confirmation(protocolo: string): (r: string)
    ensures OccursAt(r, protocolo, |ThanksPrefix|)
  {
    var r := ThanksPrefix + protocolo + ThanksSuffix;
    assert r[|ThanksPrefix|..|ThanksPrefix| + |protocolo|] == protocolo;
    r
  }

  /** The status of a new submission. */
  const NewStatus: string := "Novo"

  /** The parameters a stored submission was created from. */
  function ParamsOf(c: Contact): ContactCreateParams {
    ContactCreateParams(c.nomeCompleto, c.email, c.telefone, c.preferenciaContato, c.melhorHorario,
      c.idVeiculo, c.modeloVeiculo, c.assunto, c.mensagem, c.financiamento, c.termosPrivacidade,
      c.receberNovidades, c.ipUsuario)
  }

  /** The record stored for a submission: every parameter as given, the
      id and protocol it was assigned, sent and last updated now, status
      "Novo". */
  function Record(params: ContactCreateParams, idContato: string, protocolo: string, now: Moment): (c: Contact)
    ensures ParamsOf(c) == params
    ensures c.idContato == idContato && c.protocolo == protocolo
    ensures c.status == NewStatus && c.dataEnvio == now && c.dataUltimaAtualizacao == c.dataEnvio
  {
    Contact(idContato, protocolo, params.nomeCompleto, params.email, params.telefone,
      params.preferenciaContato, params.melhorHorario, params.idVeiculo, params.modeloVeiculo,
      params.assunto, params.mensagem, params.financiamento, params.termosPrivacidade,
      params.receberNovidades, now, params.ipUsuario, NewStatus, now)
  }

  /** The values of a map in the order of a list of its keys. */
  function ValuesIn(keys: seq<string>, m: map<string, Contact>): (r: seq<Contact>)
    requires forall k :: k in keys ==> k in m
    ensures |r| == |keys| && forall i :: 0 <= i < |keys| ==> r[i] == m[keys[i]]
  {
    if keys == [] then [] else [m[keys[0]]] + ValuesIn(keys[1..], m)
  }

  /** Adding a new key at the end of the list and to the map adds its
      value at the end of the values. */
  lemma ValuesInAppend(keys: seq<string>, m: map<string, Contact>, k: string, c: Contact)
    requires forall x :: x in keys ==> x in m
    requires k !in keys
    ensures ValuesIn(keys + [k], m[k := c]) == ValuesIn(keys, m) + [c]
  {
    var r := ValuesIn(keys + [k], m[k := c]);
    assert forall i :: 0 <= i < |keys| ==> (keys + [k])[i] == keys[i] && keys[i] != k;
  }

  /** The submissions received so far and the next sequence number. */
  class ContactStore {
    var contacts: map<string, Contact>
    /** The keys of `contacts` in the order they were first set, which is
        the order a `Map` iterates them in. */
    var keys: seq<string>
    var protocolCounter: nat

    ghost predicate Valid()
      reads this
    {
      && protocolCounter >= 1
      && (forall k :: k in contacts <==> k in keys)
      && (forall i, j :: 0 <= i < j < |keys| ==> keys[i] != keys[j])
    }

    /** The empty store, numbering from 1. */
    constructor ()
      ensures Valid()
      ensures contacts == map[] && keys == [] && protocolCounter == 1
    {
      contacts := map[];
      keys := [];
      protocolCounter := 1;
    }

    /** `generateProtocol`: the protocol for today and the counter, which
        then moves on by one whatever the date. */
    method GenerateProtocol(now: Moment) returns (p: string)
      modifies this
      ensures p == Protocol(now, old(protocolCounter))
      ensures protocolCounter == old(protocolCounter) + 1
      ensures contacts == old(contacts) && keys == old(keys)
    {
      p := Protocol(now, protocolCounter);
      protocolCounter := protocolCounter + 1;
    }

    /** `contactCreate`: stores the record under its id and answers with the
        id, the protocol and the confirmation text. */
    method Create(params: ContactCreateParams, idContato: string, now: Moment)
      returns (r: ContactCreateResponse)
      requires Valid()
      modifies this
      ensures Valid()
      ensures protocolCounter == old(protocolCounter) + 1
      ensures r.idContato == idContato && r.protocolo == Protocol(now, old(protocolCounter))
      ensures r.mensagem == Confirmation(r.protocolo)
      ensures contacts == old(contacts)[idContato := Record(params, idContato, r.protocolo, now)]
      ensures keys == if idContato in old(contacts) then old(keys) else old(keys) + [idContato]
      ensures idContato !in old(contacts) ==> List() == old(List()) + [contacts[idContato]]
    {
      ghost var before, order := contacts, keys;
      var protocolo := GenerateProtocol(now);
      var contact := Record(params, idContato, protocolo, now);
      if idContato !in contacts {
        keys := keys + [idContato];
      }
      contacts := contacts[idContato := contact];
      if idContato !in before {
        ValuesInAppend(order, before, idContato, contact);
      }
      r := ContactCreateResponse(idContato, protocolo, Confirmation(protocolo));
    }

    /** `contactList`: every stored record, in insertion order. */
    function List(): (r: seq<Contact>)
      requires Valid()
      reads this
      ensures forall c :: c in r <==> exists k :: k in contacts && contacts[k] == c
    {
      var r := ValuesIn(keys, contacts);
      assert forall k :: k in contacts ==> r[IndexOf(keys, k)] == contacts[k];
      r
    }

    /** `contactGetById`: the record stored under the id, or nothing. */
    function GetById(id: string): (r: Option<Contact>)
      reads this
      ensures r.Some? <==> id in contacts
      ensures r.Some? ==> r.value == contacts[id]
    {
      if id in contacts then Some(contacts[id]) else None
    }
  }

  /** The position of a key in a list that holds it. */
  function IndexOf(keys: seq<string>, k: string): (i: nat)
    requires k in keys
    ensures i < |keys| && keys[i] == k
  {
    if keys[0] == k then 0 else 1 + IndexOf(keys[1..], k)
  }

  /** A date the protocol can spell in its eight leading digits. */
  predicate CalendarDate(now: Moment) {
    1000 <= now.year <= 9999 && 1 <= now.month <= 12 && 1 <= now.day <= 31
  }

  /** The digits of a number below 10 to the width, padded to that width,
      spell it in exactly that many digits. */
  lemma PaddedWidth(n: nat, width: nat)
    requires width >= 1
    ensures AllDigits(Padded(n, width)) && DecimalValue(Padded(n, width)) == n
    ensures |Padded(n, width)| == width <==> n < Pow10(width)
    ensures n >= Pow10(width) ==> |Padded(n, width)| > width
  {
    ZeroPadValue(n, width);
    DecimalRoundTrip(n);
  }

  /** The year of a calendar date has four digits. */
  lemma YearDigits(year: nat)
    requires 1000 <= year <= 9999
    ensures |DecimalString(year)| == 4 && DecimalValue(DecimalString(year)) == year
  {
    DecimalRoundTrip(year);
    assert Pow10(3) == 1000 && Pow10(4) == 10000;
  }

  lemma DigitsConcat(a: string, b: string)
    requires AllDigits(a) && AllDigits(b)
    ensures AllDigits(a + b)
  {
    assert forall i :: 0 <= i < |a + b| ==> (a + b)[i] == if i < |a| then a[i] else b[i - |a|];
  }

  /** For a calendar date, the protocol is 13 digits exactly when the
      sequence number is at most 99999; then its four, two, two and five
      digit fields read back as the year, the month, the day and the
      sequence number. */
  lemma {:induction false} ProtocolFields(now: Moment, sequence: nat)
    requires CalendarDate(now)
    ensures AllDigits(Protocol(now, sequence))
    ensures |Protocol(now, sequence)| == 13 <==> sequence <= 99999
    ensures var p := Protocol(now, sequence);
      |p| >= 13 && DecimalValue(p[..4]) == now.year && DecimalValue(p[4..6]) == now.month
      && DecimalValue(p[6..8]) == now.day && DecimalValue(p[8..]) == sequence
  {
    var y, m, d, n := DecimalString(now.year), Padded(now.month, 2), Padded(now.day, 2), Padded(sequence, 5);
    YearDigits(now.year);
    assert Pow10(2) == 100 && Pow10(5) == 100000;
    PaddedWidth(now.month, 2);
    PaddedWidth(now.day, 2);
    PaddedWidth(sequence, 5);
    var p := Protocol(now, sequence);
    assert p == y + m + d + n;
    DigitsConcat(y, m);
    DigitsConcat(y + m, d);
    DigitsConcat(y + m + d, n);
    FieldSlices(y, m, d, n);
  }

  lemma FieldSlices(y: string, m: string, d: string, n: string)
    requires |y| == 4 && |m| == 2 && |d| == 2
    ensures var p := y + m + d + n; p[..4] == y && p[4..6] == m && p[6..8] == d && p[8..] == n
  {
  }

  /** Two submissions numbered differently get different protocols, on
      whatever dates they were made, while the counter stays within five
      digits. */
  lemma ProtocolsDistinct(now1: Moment, s1: nat, now2: Moment, s2: nat)
    requires CalendarDate(now1) && CalendarDate(now2)
    requires s1 <= 99999 && s2 <= 99999 && s1 != s2
    ensures Protocol(now1, s1) != Protocol(now2, s2)
  {
    ProtocolFields(now1, s1);
    ProtocolFields(now2, s2);
  }
}
