/** The records of a contact form submission
    (backend/src/services/contact/contactTypes.ts). */
module ContactTypes {

  /** A point in time, by the calendar fields the application reads from a
      `Date` (`getFullYear`, `getMonth() + 1`, `getDate`) and its
      milliseconds since the epoch. */
  datatype Moment = Moment(year: nat, month: nat, day: nat, epochMillis: nat)

  /** What the contact handler hands to the recorder, every field filled. */
  datatype ContactCreateParams = ContactCreateParams(
    nomeCompleto: string,
    email: string,
    telefone: string,
    preferenciaContato: string,
    melhorHorario: string,
    idVeiculo: string,
    modeloVeiculo: string,
    assunto: string,
    mensagem: string,
    financiamento: bool,
    termosPrivacidade: bool,
    receberNovidades: bool,
    ipUsuario: string)

  /** The confirmation returned to the visitor. */
  datatype ContactCreateResponse = ContactCreateResponse(
    idContato: string,
    protocolo: string,
    mensagem: string)

  /** A stored submission. */
  datatype Contact = Contact(
    idContato: string,
    protocolo: string,
    nomeCompleto: string,
    email: string,
    telefone: string,
    preferenciaContato: string,
    melhorHorario: string,
    idVeiculo: string,
    modeloVeiculo: string,
    assunto: string,
    mensagem: string,
    financiamento: bool,
    termosPrivacidade: bool,
    receberNovidades: bool,
    dataEnvio: Moment,
    ipUsuario: string,
    status: string,
    dataUltimaAtualizacao: Moment)

  /** The contact preferences the form offers and the server accepts. */
  const ContactPreferences: seq<string> := ["Telefone", "E-mail", "WhatsApp"]

  /** The best times to be contacted. */
  const BestTimes: seq<string> := ["Manhã", "Tarde", "Noite", "Qualquer horário"]

  /** The best time recorded when the visitor gave none. */
  const AnyTime: string := "Qualquer horário"

  /** The subjects of a contact. */
  const Subjects: seq<string> :=
    ["Informações gerais", "Agendamento de test drive", "Negociação de preço", "Financiamento", "Outro"]
}
