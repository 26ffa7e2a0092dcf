/** The two calls made against a merchant's own shop: reading its catalogue page by page, and
    creating one order, whose answer is classified here. */
module WooShop {
  import opened Basics

  // ---------------------------------------------------------------------------------------
  // The catalogue, page after page.

  const PER_PAGE: nat := 100

  datatype PageAnswer<T> =
    | NoAnswer
    | TextLost                  // the status arrived and reading the body threw
    | Refused(status: int)
    | NotJson
    | Unreadable
    | Page(products: seq<T>)

  datatype CatalogueRead<T> =
    | Catalogue(products: seq<T>)
    | TooMany
    | Failed(answer: PageAnswer<T>)
    | Threw

  /** The products of pages 1..n. */
  function UpTo<T>(answers: nat -> PageAnswer<T>, n: nat): seq<T> {
    if n == 0 then [] else UpTo(answers, n - 1) + (if answers(n).Page? then answers(n).products else [])
  }

  /** A page the walk cannot go past. */
  predicate Stops<T>(answers: nat -> PageAnswer<T>, atMost: nat, p: nat) {
    !answers(p).Page? || |UpTo(answers, p)| > atMost || |answers(p).products| < PER_PAGE
  }

  function VerdictAt<T>(answers: nat -> PageAnswer<T>, atMost: nat, p: nat): CatalogueRead<T> {
    match answers(p)
    case TextLost => Threw
    case Page(_) => if |UpTo(answers, p)| > atMost then TooMany else Catalogue(UpTo(answers, p))
    case other => Failed(other)
  }

  function PagesFor(atMost: nat): nat { (atMost + PER_PAGE - 1) / PER_PAGE + 1 }

  /** The walk ends at the first page that stops it, well inside its page limit, whatever the
      shop answers, and answers what that page says. */
  method CatalogueOf<T>(answers: nat -> PageAnswer<T>, atMost: nat) returns (read: CatalogueRead<T>, asked: nat)
    ensures 1 <= asked <= PagesFor(atMost)
    ensures Stops(answers, atMost, asked) && forall p :: 1 <= p < asked ==> !Stops(answers, atMost, p)
    ensures read == VerdictAt(answers, atMost, asked)
  {
    var products: seq<T> := [];
    var pages := PagesFor(atMost);
    asked := 0;
    while asked < pages
      invariant 0 <= asked <= pages
      invariant products == UpTo(answers, asked)
      invariant forall p :: 1 <= p <= asked ==> !Stops(answers, atMost, p)
      invariant PER_PAGE * asked <= |products|
      invariant asked > 0 ==> |products| <= atMost
    {
      asked := asked + 1;
      match answers(asked) {
        case NoAnswer => return Failed(NoAnswer), asked;
        case TextLost => return Threw, asked;
        case Refused(status) => return Failed(Refused(status)), asked;
        case NotJson => return Failed(NotJson), asked;
        case Unreadable => return Failed(Unreadable), asked;
        case Page(more) =>
          products := products + more;
          if |products| > atMost { break; }
          if |more| < PER_PAGE { return Catalogue(products), asked; }
      }
    }
    read := TooMany;
  }

  /** A catalogue that does not change, served a hundred to a page. */
  function Served<T>(products: seq<T>): nat -> PageAnswer<T> {
    (p: nat) => Page(PageOf(products, p))
  }

  function PageOf<T>(products: seq<T>, p: nat): seq<T> {
    if p == 0 || (p - 1) * PER_PAGE > |products| then []
    else products[(p - 1) * PER_PAGE .. if p * PER_PAGE <= |products| then p * PER_PAGE else |products|]
  }

  lemma {:induction false} ServedUpTo<T>(products: seq<T>, n: nat)
    ensures UpTo(Served(products), n) == products[..if n * PER_PAGE <= |products| then n * PER_PAGE else |products|]
  {
    if n > 0 {
      ServedUpTo(products, n - 1);
    }
  }

  /** Every product in order exactly when the ceiling allows them all; otherwise a refusal,
      never a part of the catalogue. */
  lemma WholeCatalogueOrNone<T>(products: seq<T>, atMost: nat, asked: nat)
    requires 1 <= asked && Stops(Served(products), atMost, asked)
    requires forall p :: 1 <= p < asked ==> !Stops(Served(products), atMost, p)
    ensures VerdictAt(Served(products), atMost, asked) == if |products| <= atMost then Catalogue(products) else TooMany
    ensures asked == (if |products| <= atMost then |products| else atMost) / PER_PAGE + 1
  {
    var least := (if |products| <= atMost then |products| else atMost) / PER_PAGE + 1;
    ServedUpTo(products, asked);
    if least < asked {
      ServedUpTo(products, least);
      assert Stops(Served(products), atMost, least);
    }
  }

  // ---------------------------------------------------------------------------------------
  // Creating one order.

  /** `Number(productId)`: a safe integer, or anything else a string can turn into. */
  datatype ProductNumber = Whole(n: int) | NotWhole

  const MAX_SAFE_INTEGER := 0x1F_FFFF_FFFF_FFFF

  predicate Orderable(product: ProductNumber) { product.Whole? && 0 < product.n <= MAX_SAFE_INTEGER }

  /** The document a shop answers with, read no further than the code reads it: `id` where it
      is a number, `number` where it is a string. JSON `null` has no fields to read. */
  datatype Body = Lost | NotADocument | Null | Document(id: Option<string>, number: Option<string>)

  datatype Answer = Silence | Answered(status: int, body: Body)

  datatype OrderMade =
    | Made(id: string, number: string)
    | NotMade(again: bool)
    | Thrown

  predicate WorthAskingAgain(status: int) { status >= 500 || status == 408 || status == 429 }

  function NumberOr(number: Option<string>, id: string): string {
    if number.Some? && number.value != "" then number.value else id
  }

  /** What one POST came to. */
  function Classify(answer: Answer): OrderMade {
    match answer
    case Silence => NotMade(true)
    case Answered(status, body) =>
      if body.Lost? then Thrown
      else if !(200 <= status <= 299) then NotMade(WorthAskingAgain(status))
      else match body
        case Null => Thrown
        case Document(Some(id), number) => Made(id, NumberOr(number, id))
        case _ => NotMade(false)
  }
}
