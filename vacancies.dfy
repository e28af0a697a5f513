/**
 * The `Vacancies` record (one vacancy reduced to the fields shown to the
 * user) and its text rendering.  Rendering writes the salary as an
 * "от N" phrase and a "до N" phrase, each left out when its bound is absent,
 * and, when both bounds are absent, sets the from-bound to 0 as a side
 * effect, so that rendering the same record again shows "от 0".
 */
module Vacancies {
  import opened Wrappers
  import opened Decimal

  /** The phrase for one salary bound: `word` followed by the bound, or
      nothing when the bound is absent. */
  function Phrase(word: string, bound: Option<int>): (p: string)
    requires word != []
    ensures p == [] <==> bound.None?
  {
    match bound
    case None => ""
    case Some(n) => word + IntToString(n)
  }

  /** The phrase for the lower salary bound: "от N", or nothing. */
  function FromPhrase(salaryFrom: Option<int>): string {
    Phrase("от ", salaryFrom)
  }

  /** The phrase for the upper salary bound: "до N", or nothing. */
  function ToPhrase(salaryTo: Option<int>): string {
    Phrase("до ", salaryTo)
  }

  /** What follows "Зарплата: " in the rendering: both phrases, joined by a space. */
  function SalaryLine(salaryFrom: Option<int>, salaryTo: Option<int>): string {
    FromPhrase(salaryFrom) + " " + ToPhrase(salaryTo)
  }

  /** Splits `s` at its first space. */
  function SplitAtSpace(s: string): (r: Option<(string, string)>)
    ensures r.Some? ==> s == r.value.0 + " " + r.value.1 && ' ' !in r.value.0
    ensures r.None? ==> ' ' !in s
  {
    if s == [] then None
    else if s[0] == ' ' then Some(([], s[1..]))
    else match SplitAtSpace(s[1..])
      case None => None
      case Some((head, tail)) => Some(([s[0]] + head, tail))
  }

  lemma {:induction false} SplitAtFirstSpace(head: string, tail: string)
    requires ' ' !in head
    ensures SplitAtSpace(head + " " + tail) == Some((head, tail))
  {
    var s := head + " " + tail;
    if head != [] {
      assert s[1..] == head[1..] + " " + tail;
      SplitAtFirstSpace(head[1..], tail);
      assert [s[0]] + head[1..] == head;
    }
  }

  /** Reads the lower bound back from the start of a salary line; yields the
      bound and the text after the space that ends its phrase. */
  function ParseFromPart(line: string): Option<(Option<int>, string)> {
    if |line| >= 3 && line[..3] == "от " then
      match SplitAtSpace(line[3..])
      case None => None
      case Some((digits, tail)) =>
        match ParseInt(digits)
        case None => None
        case Some(n) => Some((Some(n), tail))
    else if line != [] && line[0] == ' ' then Some((None, line[1..]))
    else None
  }

  /** Reads the upper bound back from the rest of a salary line. */
  function ParseToPart(tail: string): Option<Option<int>> {
    if tail == [] then Some(None)
    else if |tail| >= 3 && tail[..3] == "до " then
      match ParseInt(tail[3..])
      case None => None
      case Some(n) => Some(Some(n))
    else None
  }

  /** Reads both salary bounds back from a salary line. */
  function ParseSalaryLine(line: string): Option<(Option<int>, Option<int>)> {
    match ParseFromPart(line)
    case None => None
    case Some((salaryFrom, tail)) =>
      match ParseToPart(tail)
      case None => None
      case Some(salaryTo) => Some((salaryFrom, salaryTo))
  }

  lemma ToPartRoundTrip(salaryTo: Option<int>)
    ensures ParseToPart(ToPhrase(salaryTo)) == Some(salaryTo)
  {
    if salaryTo.Some? {
      var p := ToPhrase(salaryTo);
      assert p[..3] == "до " && p[3..] == IntToString(salaryTo.value);
      IntToStringRoundTrip(salaryTo.value);
    }
  }

  lemma FromPartRoundTrip(salaryFrom: Option<int>, tail: string)
    ensures ParseFromPart(FromPhrase(salaryFrom) + " " + tail) == Some((salaryFrom, tail))
  {
    var line := FromPhrase(salaryFrom) + " " + tail;
    match salaryFrom
    case Some(n) =>
      var digits := IntToString(n);
      assert line == "от " + (digits + " " + tail);
      assert line[..3] == "от ";
      assert line[3..] == digits + " " + tail;
      SplitAtFirstSpace(digits, tail);
      assert SplitAtSpace(line[3..]) == Some((digits, tail));
      IntToStringRoundTrip(n);
      assert ParseInt(digits) == Some(n);
    case None =>
      assert line == " " + tail;
      assert !(|line| >= 3 && line[..3] == "от ") by {
        if |line| >= 3 { assert line[0] == ' '; }
      }
      assert line[1..] == tail;
  }

  /** The salary line determines both bounds: an absent bound is never
      written the way a present one (0 in particular) is. */
  lemma SalaryLineRoundTrip(salaryFrom: Option<int>, salaryTo: Option<int>)
    ensures ParseSalaryLine(SalaryLine(salaryFrom, salaryTo)) == Some((salaryFrom, salaryTo))
  {
    FromPartRoundTrip(salaryFrom, ToPhrase(salaryTo));
    ToPartRoundTrip(salaryTo);
  }

  function Heading(title: string, employer: string): string {
    "Вакансия \"" + title + "\" \nКомпания: \"" + employer + "\" \nЗарплата: "
  }

  function Footer(url: string): string {
    "\n\n        URL: " + url
  }

  /** The text `Vacancies.__str__` returns for the given field values: the
      quoted title and employer lines, the salary line (the two phrases
      joined by a space) after "Зарплата: ", a blank line, and the URL on a
      line indented by eight spaces.  The salary line sits between a part
      fixed by title and employer and a part fixed by the URL. */
  function Render(title: string, employer: string, salaryFrom: Option<int>, salaryTo: Option<int>, url: string): (text: string)
    ensures |Heading(title, employer)| <= |text| - |Footer(url)|
    ensures text[..|Heading(title, employer)|] == "Вакансия \"" + title + "\" \nКомпания: \"" + employer + "\" \nЗарплата: "
    ensures text[|text| - |Footer(url)|..] == "\n\n        URL: " + url
    ensures text[|Heading(title, employer)|..|text| - |Footer(url)|] == FromPhrase(salaryFrom) + " " + ToPhrase(salaryTo)
  {
    var text := Heading(title, employer) + SalaryLine(salaryFrom, salaryTo) + Footer(url);
    assert text[..|Heading(title, employer)|] == Heading(title, employer);
    assert text[|text| - |Footer(url)|..] == Footer(url);
    assert text[|Heading(title, employer)|..|text| - |Footer(url)|] == SalaryLine(salaryFrom, salaryTo);
    text
  }

  /** Two renderings of the same title, employer and URL are equal exactly
      when their salary bounds are. */
  lemma RenderDeterminesSalary(title: string, employer: string, url: string,
                               from1: Option<int>, to1: Option<int>, from2: Option<int>, to2: Option<int>)
    ensures Render(title, employer, from1, to1, url) == Render(title, employer, from2, to2, url)
        <==> from1 == from2 && to1 == to2
  {
    if Render(title, employer, from1, to1, url) == Render(title, employer, from2, to2, url) {
      SalaryLineRoundTrip(from1, to1);
      SalaryLineRoundTrip(from2, to2);
    }
  }

  /** One vacancy with the seven attributes `Vacancies` keeps. */
  class Vacancy {
    var vacancyId: string
    var title: string
    var url: string
    var salaryFrom: Option<int>
    var salaryTo: Option<int>
    var employer: string
    var api: string

    /** `Vacancies.__init__`: each argument is kept unchanged. */
    constructor (vacancyId: string, title: string, url: string, salaryFrom: Option<int>,
                 salaryTo: Option<int>, employer: string, api: string)
      ensures this.vacancyId == vacancyId && this.title == title && this.url == url
      ensures this.salaryFrom == salaryFrom && this.salaryTo == salaryTo
      ensures this.employer == employer && this.api == api
    {
      this.vacancyId := vacancyId;
      this.title := title;
      this.url := url;
      this.salaryFrom := salaryFrom;
      this.salaryTo := salaryTo;
      this.employer := employer;
      this.api := api;
    }

    /** `Vacancies.__str__`: the text uses the bounds as they were on entry;
        when both were absent, the from-bound is 0 afterwards. */
    method ToString() returns (text: string)
      modifies this`salaryFrom
      ensures text == Render(title, employer, old(salaryFrom), salaryTo, url)
      ensures salaryFrom == if old(salaryFrom).None? && salaryTo.None? then Some(0) else old(salaryFrom)
    {
      var fromPhrase := FromPhrase(salaryFrom);
      var toPhrase := ToPhrase(salaryTo);
      if salaryFrom.None? && salaryTo.None? {
        salaryFrom := Some(0);
      }
      text := Heading(title, employer) + fromPhrase + " " + toPhrase + Footer(url);
    }
  }

  /** Rendering a new record twice: the two texts differ exactly when both
      salary bounds were absent, and then the second shows "от 0". */
  method RenderTwice(vacancyId: string, title: string, url: string, salaryFrom: Option<int>,
                     salaryTo: Option<int>, employer: string, api: string)
    returns (first: string, second: string)
    ensures first == Render(title, employer, salaryFrom, salaryTo, url)
    ensures first != second <==> salaryFrom.None? && salaryTo.None?
    ensures salaryFrom.None? && salaryTo.None? ==> second == Render(title, employer, Some(0), None, url)
  {
    var vacancy := new Vacancy(vacancyId, title, url, salaryFrom, salaryTo, employer, api);
    first := vacancy.ToString();
    second := vacancy.ToString();
    RenderDeterminesSalary(title, employer, url, salaryFrom, salaryTo, vacancy.salaryFrom, salaryTo);
  }
}
