/** Values that cross the service boundary: the request fields the services
    receive, the sale items of a request body, and the `{ err: { code, message } }`
    results the services hand back to the controllers. */
module Values {

  datatype Option<T> = None | Some(value: T)

  /** One JSON value as the services see it. `Absent` is JavaScript's `undefined`
      (a missing key or argument); `Other` stands for booleans, objects and arrays,
      which no rule of the core tells apart. Numbers are mathematical reals. */
  datatype Field = Absent | Null | Text(s: string) | Number(x: real) | Other

  predicate IsInteger(x: real) {
    x.Floor as real == x
  }

  /** One element of a sale request: its `productId` and `quantity` keys and the
      names of any further keys the object carries. As in a JavaScript object,
      `otherKeys` is meant to hold distinct names, none of them `productId` or
      `quantity`; the model does not enforce this. */
  datatype RawItem = RawItem(productId: Field, quantity: Field, otherKeys: seq<string>)

  /** A sale request body: missing (`undefined`), an array of item objects, or
      anything else (`null` included). */
  datatype SalePayload = Undefined | NotAnArray | Items(items: seq<RawItem>)

  datatype Code = InvalidData | NotFound | StockProblem

  datatype ServiceError = ServiceError(code: Code, message: string)

  /** What a service returns: the record, an `err` object, or (in one place) an
      error object of the database driver passed through unchanged. */
  datatype Response<T> = Ok(value: T) | Err(error: ServiceError) | DriverError(message: string)
}
