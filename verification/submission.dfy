/**
 * What the contact form collects and sends: four text fields, keyed by the
 * ids of the form's inputs, and the address every failure message offers
 * as a way to reach the site's owner directly.
 */
module Submission {

  /** The fallback contact address named in the failure messages. */
  const ContactAddress: string := "chitrangana.singha@gmail.com"

  /** The ids of the four inputs; `handleChange` uses the id of the input
      that changed as the key it updates. */
  datatype FieldId = Name | Email | Subject | Message

  /** The draft the form holds, and the JSON body it posts. */
  datatype Fields = Fields(name: string, email: string, subject: string, message: string)
  {
    /** The value of the field with the given id. */
    function Get(id: FieldId): string {
      match id
      case Name => name
      case Email => email
      case Subject => subject
      case Message => message
    }

    /** `{ ...this, [id]: value }`: the draft with one field replaced. */
    function With(id: FieldId, value: string): (r: Fields)
      ensures r.Get(id) == value
      ensures forall other :: other != id ==> r.Get(other) == Get(other)
    {
      match id
      case Name => this.(name := value)
      case Email => this.(email := value)
      case Subject => this.(subject := value)
      case Message => this.(message := value)
    }
  }

  /** The draft the form starts with and returns to after a success. */
  const EmptyFields: Fields := Fields("", "", "", "")
}
