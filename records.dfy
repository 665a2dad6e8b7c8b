/** The app's one record: five free-text fields. */
module Records {

  datatype Record = Record(name: string, email: string, tel: string, addr: string, notes: string)

  /** The record every field of which is empty, as freshly allocated strings are. */
  const Empty: Record := Record("", "", "", "", "")

  /** Names a field of the record. */
  datatype Field = Name | Email | Tel | Addr | Notes

  /** The fields in the order the file lists them and the card shows them. */
  const FieldOrder: seq<Field> := [Name, Email, Tel, Addr, Notes]

  function Get(r: Record, f: Field): string {
    match f
    case Name => r.name
    case Email => r.email
    case Tel => r.tel
    case Addr => r.addr
    case Notes => r.notes
  }

  /** `r` with field `f` set to `v`: that field reads `v`, every other field is as in `r`. */
  function Set(r: Record, f: Field, v: string): (r': Record)
    ensures Get(r', f) == v
    ensures forall g :: g != f ==> Get(r', g) == Get(r, g)
  {
    match f
    case Name => r.(name := v)
    case Email => r.(email := v)
    case Tel => r.(tel := v)
    case Addr => r.(addr := v)
    case Notes => r.(notes := v)
  }

  /** Two records are equal exactly when they agree on every field. */
  lemma RecordExtensionality(r: Record, s: Record)
    requires forall f :: Get(r, f) == Get(s, f)
    ensures r == s
  {
    assert Get(r, Name) == Get(s, Name);
    assert Get(r, Email) == Get(s, Email);
    assert Get(r, Tel) == Get(s, Tel);
    assert Get(r, Addr) == Get(s, Addr);
    assert Get(r, Notes) == Get(s, Notes);
  }
}
