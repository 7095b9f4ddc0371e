/** The `form` state shared in shape by both contact pages. */
module Forms {

  datatype ContactForm = ContactForm(name: string, email: string, message: string)

  /** The input a change event names (`e.target.name`). */
  datatype Field = NameField | EmailField | MessageField

  /** `{ ...form, [field]: value }`. */
  function WithField(f: ContactForm, field: Field, value: string): (r: ContactForm)
    ensures field == NameField ==> r.name == value && r.email == f.email && r.message == f.message
    ensures field == EmailField ==> r.email == value && r.name == f.name && r.message == f.message
    ensures field == MessageField ==> r.message == value && r.name == f.name && r.email == f.email
  {
    match field
    case NameField => f.(name := value)
    case EmailField => f.(email := value)
    case MessageField => f.(message := value)
  }
}
