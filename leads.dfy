/** What the two lead forms (job application, service inquiry) share: the
    row they insert into `applications` and the way they split the name. */
module Leads {
  import opened Common
  import opened Text

  /** An uploaded file, as far as the forms use it. */
  datatype FileInfo = FileInfo(name: string)

  /** The object passed to `submitApplication`. */
  datatype Submission = Submission(
    firstName: string,
    lastName: string,
    email: string,
    phone: Option<string>,
    message: string,
    sourceType: string,
    sourceId: Option<string>)

  datatype NameParts = NameParts(first: string, last: string)

  /** `name.trim().split(' ')`: the first piece, and the other pieces joined
      again with `' '`, each replaced by `'N/A'` when empty. */
  function SplitName(name: string): NameParts
  {
    var parts := Split(Trim(name), ' ');
    var first := parts[0];
    var last := OrElse(Join(parts[1..], ' '), "N/A");
    NameParts(OrElse(first, "N/A"), OrElse(last, "N/A"))
  }

  /** With a space in the trimmed name, the first name is the text before
      the first space, the last name the text after it, and the two joined
      by a space give the trimmed name back. */
  lemma SplitNameAtSpace(name: string)
    requires ' ' in Trim(name)
    ensures var t := Trim(name); var k := IndexOf(t, ' '); var n := SplitName(name);
      && n.first == t[..k] && n.last == t[k + 1..]
      && n.first != "" && n.last != ""
      && n.first + " " + n.last == t
  {
    SplitInner(Trim(name));
  }

  /** Splitting a text that neither starts nor ends with a space but has
      one inside: the text before the first space, and the rest rejoined. */
  lemma SplitInner(t: string)
    requires ' ' in t && !IsSpace(t[0]) && !IsSpace(t[|t| - 1])
    ensures var k := IndexOf(t, ' '); var parts := Split(t, ' ');
      && 0 < k < |t| - 1
      && parts[0] == t[..k] && Join(parts[1..], ' ') == t[k + 1..]
      && t == t[..k] + " " + t[k + 1..]
  {
    var k := IndexOf(t, ' ');
    SplitHeadTail(t, ' ');
    Around(t, k);
    assert IsSpace(t[k]);
  }

  /** Without a space in the trimmed name, the whole trimmed name (or
      `'N/A'` when it is empty) is the first name and the last name is
      `'N/A'`. */
  lemma SplitNameSingle(name: string)
    requires ' ' !in Trim(name)
    ensures SplitName(name) == NameParts(OrElse(Trim(name), "N/A"), "N/A")
  {
    var t := Trim(name);
    SplitNoSeparator(t, ' ');
    var parts := Split(t, ' ');
    assert parts[1..] == [];
    assert Join(parts[1..], ' ') == "";
  }

  /** The message lines, joined by new lines as the forms' `+=` appends do. */
  function JoinLines(lines: seq<string>): string
  {
    Join(lines, '\n')
  }

  /** `message += '\n' + line`: the message of `lines` becomes the message
      of `lines` with `line` after them. */
  method AppendLine(message: string, line: string, ghost lines: seq<string>) returns (r: string)
    requires |lines| >= 1 && message == JoinLines(lines)
    ensures r == JoinLines(lines + [line])
  {
    JoinSnoc(lines, '\n', line);
    r := message + "\n" + line;
  }
}
