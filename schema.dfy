/** The enumerations and rows of the database schema, with money in integer cents and
    timestamps as integers. */
module Schema {
  import opened Js

  datatype Role = SuperAdmin | Admin | User

  datatype Status = Active | Inactive

  datatype PaymentMethod = Cash | CreditCard

  datatype SaleStatus = Pending | Concluded | Cancelled

  function RoleName(r: Role): string {
    match r
    case SuperAdmin => "SUPER_ADMIN"
    case Admin => "ADMIN"
    case User => "USER"
  }

  function SaleStatusName(s: SaleStatus): string {
    match s
    case Pending => "PENDING"
    case Concluded => "CONCLUDED"
    case Cancelled => "CANCELLED"
  }

  /** A product row. `createdBy`/`updatedBy` hold the creating user's id as the handler read it. */
  datatype Product = Product(
    id: string,
    name: string,
    barCode: string,
    price: int,
    createdAt: int,
    active: Status,
    createdBy: JsNumber,
    updatedBy: JsNumber)

  /** A sale row. */
  datatype Sale = Sale(
    id: string,
    sellerId: JsNumber,
    paymentMethod: PaymentMethod,
    total: int,
    amountReceived: int,
    change: int,
    saleDate: int,
    status: SaleStatus)

  /** A user row; `role` is whatever role name the creating request carried. */
  datatype UserRow = UserRow(
    id: int,
    name: string,
    email: string,
    password: string,
    phone: string,
    role: string,
    createdAt: int,
    active: Status)
}
