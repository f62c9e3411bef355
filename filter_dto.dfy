/**
 * `FilterJobOffersDto`: every field optional; salaries, when given, at least 0;
 * page and limit, when given, at least 1, defaulting to 1 and 10.
 * Numbers are modelled as integers.
 */
module FilterDto {
  import opened Wrappers

  datatype FilterJobOffersDto = FilterJobOffersDto(
    title: Option<string>,
    location: Option<string>,
    minSalary: Option<int>,
    maxSalary: Option<int>,
    page: Option<int>,
    limit: Option<int>)

  const DefaultPage := 1
  const DefaultLimit := 10

  /** What the validation decorators accept. */
  predicate IsValid(f: FilterJobOffersDto) {
    && (f.minSalary.Some? ==> f.minSalary.value >= 0)
    && (f.maxSalary.Some? ==> f.maxSalary.value >= 0)
    && (f.page.Some? ==> f.page.value >= 1)
    && (f.limit.Some? ==> f.limit.value >= 1)
  }

  /** The page actually used: the given one, or 1. */
  function PageOf(f: FilterJobOffersDto): (p: int)
    ensures f.page.None? ==> p == DefaultPage
    ensures f.page.Some? ==> p == f.page.value
    ensures IsValid(f) ==> p >= 1
  {
    match f.page
    case Some(p) => p
    case None => DefaultPage
  }

  /** The page size actually used: the given one, or 10. */
  function LimitOf(f: FilterJobOffersDto): (n: int)
    ensures f.limit.None? ==> n == DefaultLimit
    ensures f.limit.Some? ==> n == f.limit.value
    ensures IsValid(f) ==> n >= 1
  {
    match f.limit
    case Some(n) => n
    case None => DefaultLimit
  }
}
