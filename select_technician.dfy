/**
 * Step 3 of the booking wizard: a fixed roster of technicians, each shown
 * with an avatar fallback made of the name's initials and a button labelled
 * with the first name. Choosing one only shows a confirmation and returns to
 * the landing page after a delay; no booking row is written.
 */
module SelectTechnician {
  import opened Common
  import opened BookingTable
  import opened SelectDateTime

  /** A roster entry (the floating-point rating is not modelled). */
  datatype Technician = Technician(
    id: int,
    name: string,
    avatar: string,
    reviews: nat,
    specialties: seq<string>,
    verified: bool,
    experience: string)

  const Technicians: seq<Technician> := [
    Technician(1, "Carlos Silva", "https://api.dicebear.com/7.x/avataaars/svg?seed=Carlos", 127,
               ["Limpeza completa", "Polimento"], true, "5 anos"),
    Technician(2, "João Santos", "https://api.dicebear.com/7.x/avataaars/svg?seed=Joao", 98,
               ["Detalhamento", "Higienização"], true, "4 anos"),
    Technician(3, "Pedro Oliveira", "https://api.dicebear.com/7.x/avataaars/svg?seed=Pedro", 85,
               ["Limpeza interna", "Cristalização"], true, "3 anos")
  ]

  /** Three technicians with distinct ids and distinct names. */
  lemma RosterDistinct()
    ensures |Technicians| == 3
    ensures forall i, j :: 0 <= i < j < |Technicians| ==>
      Technicians[i].id != Technicians[j].id && Technicians[i].name != Technicians[j].name
  {
  }

  /** `String.prototype.split(sep)` with a one-character separator: never empty, no part holds `sep`. */
  function Split(s: string, sep: char): (r: seq<string>)
    ensures |r| >= 1
    ensures forall k :: 0 <= k < |r| ==> sep !in r[k]
  {
    if s == [] then [""]
    else if s[0] == sep then [""] + Split(s[1..], sep)
    else
      var t := Split(s[1..], sep);
      [[s[0]] + t[0]] + t[1..]
  }

  /** `Array.prototype.join(sep)`. */
  function Join(parts: seq<string>, sep: string): string {
    if |parts| == 0 then ""
    else if |parts| == 1 then parts[0]
    else parts[0] + sep + Join(parts[1..], sep)
  }

  /** Joining the parts of a split with the separator gives the string back. */
  lemma {:induction false} SplitJoin(s: string, sep: char)
    ensures Join(Split(s, sep), [sep]) == s
  {
    if s != [] {
      SplitJoin(s[1..], sep);
      var t := Split(s[1..], sep);
      if s[0] == sep {
        assert Split(s, sep)[1..] == t;
      } else {
        var r := Split(s, sep);
        assert r[1..] == t[1..];
        if |t| > 1 {
          assert Join(t, [sep]) == t[0] + [sep] + Join(t[1..], [sep]);
        }
        assert s == [s[0]] + s[1..];
      }
    }
  }

  /** `n[0]` of a part, rendered by `join` as "" when the part is empty. */
  function FirstChar(part: string): string {
    if part == [] then "" else [part[0]]
  }

  function FirstChars(parts: seq<string>): (r: seq<string>)
    ensures |r| == |parts|
  {
    if parts == [] then [] else [FirstChar(parts[0])] + FirstChars(parts[1..])
  }

  /** The avatar fallback `name.split(' ').map(n => n[0]).join('')`. */
  function Initials(name: string): string {
    Join(FirstChars(Split(name, ' ')), "")
  }

  /** The button label's `name.split(' ')[0]`. */
  function FirstName(name: string): string {
    Split(name, ' ')[0]
  }

  function ButtonLabel(name: string): string {
    "Agendar com " + FirstName(name)
  }

  /**
   * Reference definition of the initials, read directly off the name: every
   * non-space character that starts the name or follows a space.
   * `afterSpace` says whether the character before `s` was a space (or absent).
   */
  function WordStarts(s: string, afterSpace: bool): string {
    if s == [] then ""
    else (if s[0] != ' ' && afterSpace then [s[0]] else "") + WordStarts(s[1..], s[0] == ' ')
  }

  lemma JoinConsEmptySep(a: string, rest: seq<string>)
    ensures Join([a] + rest, "") == a + Join(rest, "")
  {
  }

  lemma {:induction false} InitialsAreWordStartsAux(s: string)
    ensures Join(FirstChars(Split(s, ' ')), "") == WordStarts(s, true)
    ensures Join(FirstChars(Split(s, ' ')[1..]), "") == WordStarts(s, false)
  {
    if s != [] {
      InitialsAreWordStartsAux(s[1..]);
      var t := Split(s[1..], ' ');
      if s[0] == ' ' {
        assert Split(s, ' ') == [""] + t;
        assert ([""] + t)[1..] == t;
        assert FirstChars([""] + t) == [""] + FirstChars(t);
        JoinConsEmptySep("", FirstChars(t));
      } else {
        var head := [s[0]] + t[0];
        assert Split(s, ' ') == [head] + t[1..];
        assert ([head] + t[1..])[1..] == t[1..];
        assert FirstChars([head] + t[1..]) == [[s[0]]] + FirstChars(t[1..]);
        JoinConsEmptySep([s[0]], FirstChars(t[1..]));
        assert t == [t[0]] + t[1..];
        assert FirstChars(t)[1..] == FirstChars(t[1..]);
        assert FirstChars([t[0]] + t[1..]) == [FirstChar(t[0])] + FirstChars(t[1..]);
        JoinConsEmptySep(FirstChar(t[0]), FirstChars(t[1..]));
      }
    }
  }

  /** The initials are the first characters of the non-empty space-separated segments. */
  lemma InitialsAreWordStarts(name: string)
    ensures Initials(name) == WordStarts(name, true)
  {
    InitialsAreWordStartsAux(name);
  }

  /** Every initial is a non-space character of the name. */
  lemma {:induction false} WordStartsFromName(s: string, afterSpace: bool)
    ensures forall c :: c in WordStarts(s, afterSpace) ==> c != ' ' && c in s
  {
    if s != [] {
      WordStartsFromName(s[1..], s[0] == ' ');
    }
  }

  /** A name without spaces has its first character as its only initial. */
  lemma {:induction false} WordStartsNoSpace(s: string, afterSpace: bool)
    requires ' ' !in s
    ensures WordStarts(s, afterSpace) == (if afterSpace && s != [] then [s[0]] else "")
  {
    if s != [] {
      WordStartsNoSpace(s[1..], false);
      assert WordStarts(s[1..], s[0] == ' ') == "";
    }
  }

  /** The first name is the part of the name before its first space. */
  lemma {:induction false} FirstNameIsPrefix(name: string)
    ensures FirstName(name) <= name
    ensures ' ' !in FirstName(name)
    ensures ' ' !in name ==> FirstName(name) == name
    ensures |FirstName(name)| < |name| ==> name[|FirstName(name)|] == ' '
  {
    if name != [] && name[0] != ' ' {
      FirstNameIsPrefix(name[1..]);
      assert FirstName(name) == [name[0]] + FirstName(name[1..]);
    }
  }

  /** The fields the page reads from its navigation state; each absent when there is none. */
  datatype TechnicianDraft = TechnicianDraft(
    city: Option<string>, neighborhood: Option<string>, date: Option<int>, time: Option<string>)

  /** `const { city, neighborhood, date, time } = location.state || {}`. */
  function ReadDraft(state: Option<DateTimeDraft>): (d: TechnicianDraft)
    ensures state.None? ==> d == TechnicianDraft(None, None, None, None)
    ensures state.Some? ==>
      && d.city == state.value.city && d.neighborhood == state.value.neighborhood
      && d.date == Some(state.value.date) && d.time == Some(state.value.time)
  {
    match state
    case None => TechnicianDraft(None, None, None, None)
    case Some(s) => TechnicianDraft(s.city, s.neighborhood, Some(s.date), Some(s.time))
  }

  /** An effect the booking action requests from the browser. */
  datatype Effect =
    | Notify(title: string, description: string)
    | NavigateAfter(delayMs: nat, path: string)

  /** The bookings table after the action, and the effects it requested. */
  datatype BookingOutcome = BookingOutcome(table: seq<Booking>, effects: seq<Effect>)

  /** `handleBooking`: confirm, then go to "/" after two seconds. The table is left as it was. */
  function HandleBooking(table: seq<Booking>, technicianName: string): (r: BookingOutcome)
    ensures r.table == table
    ensures |r.effects| == 2
    ensures r.effects[0].Notify? && r.effects[0].title == "Agendamento confirmado!"
    ensures r.effects[1] == NavigateAfter(2000, "/")
  {
    BookingOutcome(table, [
      Notify("Agendamento confirmado!", "Técnico " + technicianName + " foi notificado do seu agendamento."),
      NavigateAfter(2000, "/")])
  }

  /** The confirmation names the chosen technician. */
  lemma ConfirmationNamesTechnician(table: seq<Booking>, technicianName: string)
    ensures var d := HandleBooking(table, technicianName).effects[0].description;
      d[|"Técnico "|..|"Técnico "| + |technicianName|] == technicianName
  {
  }
}
