/** The entities of `src/types/index.ts` that the core uses. */
module Types {
  import opened Wrappers

  /** `Role`: the closed set of roles a user can hold. */
  datatype Role = Homeowner | Professional | Vendor

  /** The string a role is stored and routed under. */
  function RoleName(r: Role): string
  {
    match r
    case Homeowner => "homeowner"
    case Professional => "professional"
    case Vendor => "vendor"
  }

  /** The role a stored string names, if it names one. */
  function ParseRole(s: string): (r: Option<Role>)
    ensures forall x :: r == Some(x) <==> RoleName(x) == s
  {
    if s == "homeowner" then Some(Homeowner)
    else if s == "professional" then Some(Professional)
    else if s == "vendor" then Some(Vendor)
    else None
  }

  /** Parsing the stored name of a role gives the role back. */
  lemma ParseRoleName(r: Role)
    ensures ParseRole(RoleName(r)) == Some(r)
  {
  }

  /** `Professional`: a professional's profile record. */
  datatype ProfessionalRecord = ProfessionalRecord(
    id: string,
    fullName: string,
    professionType: string,
    experience: int,
    location: string,
    phone: string,
    bio: string,
    profilePicture: Option<string>,
    createdAt: int)

  /** `Product`: a vendor's catalogue entry; the description may be missing. */
  datatype Product = Product(
    id: string,
    vendorId: string,
    name: string,
    description: Option<string>,
    price: real,
    category: string,
    stock: int,
    imageUrl: Option<string>,
    createdAt: string,
    updatedAt: string)
}
