/** Padding-scheme convergence: what a client's settings say, and how the server's answers bring the
    client's scheme to the server's, with any number of sessions under way. */
module Convergence {
  import opened Bytes
  import opened Options
  import opened Text
  import opened Frames
  import opened Scheme
  import opened SessionSpec
  import World
  import Duties

  // ---- The settings a client sends ----

  const VERSION_KEY: string := "v"
  const CLIENT_KEY: string := "client"
  const MD5_KEY: string := "padding-md5"

  function Settings(name: bytes, md5: bytes): StringMap {
    map[Ascii(VERSION_KEY) := Ascii("2"), Ascii(CLIENT_KEY) := name, Ascii(MD5_KEY) := md5]
  }

  lemma VersionTwo()
    ensures ParseInt(Ascii("2")) == Some(2)
  {
    assert Ascii("2") == Itoa(2);
    ParseItoaIff(2);
  }

  lemma KeysDiffer()
    ensures Ascii(VERSION_KEY) != Ascii(CLIENT_KEY) && Ascii(VERSION_KEY) != Ascii(MD5_KEY)
            && Ascii(CLIENT_KEY) != Ascii(MD5_KEY)
  {
    assert |Ascii(VERSION_KEY)| == 1 && |Ascii(CLIENT_KEY)| == 6 && |Ascii(MD5_KEY)| == 11;
  }

  lemma CleanWord(s: string)
    requires forall i :: 0 <= i < |s| ==> s[i] < 128 as char && s[i] != '=' && s[i] != '\n'
    ensures EQUALS !in Ascii(s) && NEWLINE !in Ascii(s)
  {
    var b := Ascii(s);
    forall i | 0 <= i < |b| ensures b[i] != EQUALS && b[i] != NEWLINE {
      assert b[i] as int == s[i] as int;
    }
  }

  lemma SettingsAreClean(name: bytes, md5: bytes)
    requires NEWLINE !in name && NEWLINE !in md5
    ensures Clean(Settings(name, md5))
  {
    CleanWord(VERSION_KEY);
    CleanWord(CLIENT_KEY);
    CleanWord(MD5_KEY);
    CleanWord("2");
    hide Ascii;
  }

  /** Whatever order the map is printed in, the server reads version 2 and the client's own md5. */
  lemma SettingsAnnounce(name: bytes, md5: bytes, order: seq<bytes>)
    requires NEWLINE !in name && NEWLINE !in md5 && Enumerates(order, Settings(name, md5))
    ensures var text := Join(Lines(order, Settings(name, md5)), NEWLINE);
            AnnouncedVersion(text) == Some(2) && AnnouncedMd5(text) == md5 && text != []
  {
    SettingsAreClean(name, md5);
    SettingsRoundTripIff(Settings(name, md5), order);
    KeysDiffer();
    VersionTwo();
    EmptyText();
    hide Ascii;
    hide ParseInt;
    hide FromBytes;
    hide Join;
    hide Lines;
  }

  /** So the frame `Run` writes starts a session as the two-party model assumes. */
  lemma RunWritesSettings(name: bytes, raw: bytes, md5: bytes, order: seq<bytes>, server: Session)
    requires NEWLINE !in name && NEWLINE !in md5 && Enumerates(order, Settings(name, md5))
    requires |Join(Lines(order, Settings(name, md5)), NEWLINE)| < U16_LIMIT && |raw| < U16_LIMIT
    requires server == NewSession(false, server.raw, server.md5) && |server.raw| < U16_LIMIT
    ensures var f := Frame(CMD_SETTINGS, 0, Join(Lines(order, Settings(name, md5)), NEWLINE));
            World.GoodStart(f, NewSession(true, raw, md5).(out := [f]), server)
  {
    SettingsAnnounce(name, md5, order);
    hide AnnouncedVersion;
    hide Join;
    hide Lines;
  }

  /** The server's settings are what printing its one-entry map gives, and announce version 2. */
  lemma ServerAnnouncesTwo()
    ensures var m: StringMap := map[Ascii(VERSION_KEY) := Ascii("2")];
            && ServerSettingsText() == Join(Lines([Ascii(VERSION_KEY)], m), NEWLINE)
            && AnnouncedVersion(ServerSettingsText()) == Some(2)
  {
    var m: StringMap := map[Ascii(VERSION_KEY) := Ascii("2")];
    CleanWord(VERSION_KEY);
    CleanWord("2");
    VersionTwo();
    var order := [Ascii(VERSION_KEY)];
    assert Lines(order, m) == [Ascii(VERSION_KEY) + [EQUALS] + Ascii("2")];
    assert ServerSettingsText() == Ascii(VERSION_KEY) + [EQUALS] + Ascii("2");
    SettingsRoundTripIff(m, order);
    hide Ascii;
    hide ParseInt;
    hide FromBytes;
  }

  // ---- The machine ----

  /** One session: the client's settings on their way, the server's answers on their way back, and how
      many scheme updates the server has sent on it. */
  datatype Link = Link(up: Option<Frame>, down: seq<Frame>, updates: nat)

  /** A client process and its server, with the scheme each uses. */
  datatype State = State(client: Factory, server: Factory, links: seq<Link>)

  datatype Event =
    | Connect(name: bytes, order: seq<bytes>)
    | ServerReads(i: nat)
    | ClientReads(i: nat)
    | Reload(raw: bytes)

  function SettingsFrame(name: bytes, md5: bytes, order: seq<bytes>): Frame
    requires Enumerates(order, Settings(name, md5))
  {
    Frame(CMD_SETTINGS, 0, Join(Lines(order, Settings(name, md5)), NEWLINE))
  }

  /** The frames the server answers the settings with. */
  function Answers(server: Factory, f: Frame): seq<Frame> {
    HandleSettings(NewSession(false, server.raw, server.md5), f.data).out
  }

  predicate IsUpdate(f: Frame) { f.cmd == CMD_UPDATE_PADDING_SCHEME && f.data != [] }

  function Updates(fs: seq<Frame>): nat {
    if fs == [] then 0 else Updates(fs[..|fs| - 1]) + if IsUpdate(fs[|fs| - 1]) then 1 else 0
  }

  /** What reading a frame does to the client's factory. */
  function Adopt(client: Factory, f: Frame, md5: bytes -> bytes): Factory {
    if IsUpdate(f) && NewFactory(f.data, md5).Some? then NewFactory(f.data, md5).value else client
  }

  function Next(st: State, e: Event, md5: bytes -> bytes): State {
    match e
    case Connect(name, order) =>
      if NEWLINE !in name && Enumerates(order, Settings(name, st.client.md5)) then
        st.(links := st.links + [Link(Some(SettingsFrame(name, st.client.md5, order)), [], 0)])
      else st
    case ServerReads(i) =>
      if i < |st.links| && st.links[i].up.Some? then
        var l, fs := st.links[i], Answers(st.server, st.links[i].up.value);
        st.(links := st.links[i := Link(None, l.down + fs, l.updates + Updates(fs))])
      else st
    case ClientReads(i) =>
      if i < |st.links| && st.links[i].down != [] then
        var l := st.links[i];
        st.(client := Adopt(st.client, l.down[0], md5), links := st.links[i := l.(down := l.down[1..])])
      else st
    case Reload(raw) =>
      if NewFactory(raw, md5).Some? && |raw| < U16_LIMIT then st.(server := NewFactory(raw, md5).value) else st
  }

  function Run(st: State, events: seq<Event>, md5: bytes -> bytes): State {
    if events == [] then st else Next(Run(st, events[..|events| - 1], md5), events[|events| - 1], md5)
  }

  /** md5 sums are printed in hexadecimal. */
  ghost predicate Printed(md5: bytes -> bytes) {
    forall raw :: NEWLINE !in md5(raw)
  }

  predicate Made(f: Factory, md5: bytes -> bytes) { NewFactory(f.raw, md5) == Some(f) }

  /** Both factories come from their raw schemes, and every update under way can be parsed. */
  predicate Good(st: State, md5: bytes -> bytes) {
    Made(st.client, md5) && Made(st.server, md5) && Parsable(st, md5)
  }

  predicate Parsable(st: State, md5: bytes -> bytes) {
    forall i, k :: 0 <= i < |st.links| && 0 <= k < |st.links[i].down| && IsUpdate(st.links[i].down[k]) ==>
      NewFactory(st.links[i].down[k].data, md5).Some?
  }

  /** Settings under way were not empty when they were printed. */
  predicate Spoken(st: State) {
    forall i :: 0 <= i < |st.links| && st.links[i].up.Some? ==> st.links[i].up.value.data != []
  }

  predicate Modern(data: bytes) { AnnouncedVersion(data).Some? && AnnouncedVersion(data).value >= 2 }

  /** The update, if the md5s differ, and then the server's settings, if the client has version 2. */
  lemma AnswersAre(server: Factory, f: Frame)
    requires f.data != []
    ensures Answers(server, f) ==
              (if AnnouncedMd5(f.data) != server.md5 then [Frame(CMD_UPDATE_PADDING_SCHEME, 0, server.raw)] else [])
              + if Modern(f.data) then [Frame(CMD_SERVER_SETTINGS, 0, ServerSettingsText())] else []
  {
    hide AnnouncedMd5;
    hide AnnouncedVersion;
    hide ServerSettingsText;
  }

  /** The server sends an update exactly when the md5s differ, and it carries the server's raw scheme. */
  lemma AnswersAreRight(server: Factory, f: Frame)
    requires server.raw != [] && f.data != []
    ensures var fs := Answers(server, f);
            && Updates(fs) == (if AnnouncedMd5(f.data) != server.md5 then 1 else 0)
            && forall k :: 0 <= k < |fs| && IsUpdate(fs[k]) ==> fs[k].data == server.raw
  {
    hide AnnouncedMd5;
    hide Modern;
    hide Answers;
    hide Updates;
    hide ServerSettingsText;
    AnswersAre(server, f);
    var update, hello := Frame(CMD_UPDATE_PADDING_SCHEME, 0, server.raw),
        Frame(CMD_SERVER_SETTINGS, 0, ServerSettingsText());
    var fs := Answers(server, f);
    if AnnouncedMd5(f.data) != server.md5 {
      assert fs == [update] + if Modern(f.data) then [hello] else [];
      UpdateAndHello(fs, update, hello);
    } else {
      assert fs == if Modern(f.data) then [hello] else [];
      OnlyHello(fs, hello);
    }
  }

  lemma OnlyHello(fs: seq<Frame>, hello: Frame)
    requires !IsUpdate(hello) && (fs == [] || fs == [hello])
    ensures Updates(fs) == 0 && forall k :: 0 <= k < |fs| ==> !IsUpdate(fs[k])
  {
    UpdatesSnoc([], hello);
    assert [] + [hello] == [hello];
  }

  lemma UpdateAndHello(fs: seq<Frame>, update: Frame, hello: Frame)
    requires IsUpdate(update) && !IsUpdate(hello) && (fs == [update] || fs == [update] + [hello])
    ensures Updates(fs) == 1 && forall k :: 0 <= k < |fs| && IsUpdate(fs[k]) ==> fs[k] == update
  {
    hide Updates;
    UpdatesSnoc([], update);
    UpdatesSnoc([update], hello);
    assert [] + [update] == [update];
  }

  lemma UpdatesSnoc(fs: seq<Frame>, f: Frame)
    ensures Updates(fs + [f]) == Updates(fs) + if IsUpdate(f) then 1 else 0
    ensures Updates([]) == 0
  {
    assert (fs + [f])[..|fs|] == fs;
  }

  lemma NextKeepsGood(st: State, e: Event, md5: bytes -> bytes)
    requires Good(st, md5) && Printed(md5) && Spoken(st)
    ensures Good(Next(st, e, md5), md5) && Spoken(Next(st, e, md5))
  {
    FactoriesStayMade(st, e, md5);
    NextKeepsSpoken(st, e, md5);
    hide Next;
    hide Spoken;
    NextKeepsParsable(st, e, md5);
    hide Parsable;
  }

  lemma NextKeepsSpoken(st: State, e: Event, md5: bytes -> bytes)
    requires Printed(md5) && Made(st.client, md5) && Spoken(st)
    ensures Spoken(Next(st, e, md5))
  {
    hide Enumerates;
    hide Adopt;
    hide Answers;
    hide Updates;
    if e.Connect? && NEWLINE !in e.name && Enumerates(e.order, Settings(e.name, st.client.md5)) {
      SettingsAnnounce(e.name, st.client.md5, e.order);
      hide Join;
      hide Lines;
    }
  }

  lemma NextKeepsParsable(st: State, e: Event, md5: bytes -> bytes)
    requires Made(st.server, md5) && Parsable(st, md5) && Spoken(st)
    ensures Parsable(Next(st, e, md5), md5)
  {
    MadeFromSomething(st.server, md5);
    hide NewFactory;
    if e.ServerReads? {
      if e.i < |st.links| && st.links[e.i].up.Some? {
        AnswersAreRight(st.server, st.links[e.i].up.value);
        AnswerKeepsParsable(st, e.i, md5);
      }
    } else {
      QuietKeepsParsable(st, e, md5);
    }
  }

  lemma AnswerKeepsParsable(st: State, i: nat, md5: bytes -> bytes)
    requires Made(st.server, md5) && Parsable(st, md5) && i < |st.links| && st.links[i].up.Some?
    requires var fs := Answers(st.server, st.links[i].up.value);
             forall k :: 0 <= k < |fs| && IsUpdate(fs[k]) ==> fs[k].data == st.server.raw
    ensures Parsable(Next(st, ServerReads(i), md5), md5)
  {
    hide NewFactory;
    hide Answers;
    hide Updates;
  }

  lemma QuietKeepsParsable(st: State, e: Event, md5: bytes -> bytes)
    requires Parsable(st, md5) && !e.ServerReads?
    ensures Parsable(Next(st, e, md5), md5)
  {
    hide NewFactory;
    hide Adopt;
    hide Enumerates;
    hide SettingsFrame;
  }

  lemma MadeFromSomething(f: Factory, md5: bytes -> bytes)
    requires Made(f, md5)
    ensures f.raw != []
  {
  }

  lemma FactoriesStayMade(st: State, e: Event, md5: bytes -> bytes)
    requires Made(st.client, md5) && Made(st.server, md5)
    ensures Made(Next(st, e, md5).client, md5) && Made(Next(st, e, md5).server, md5)
  {
    hide Enumerates;
    hide Answers;
    hide SettingsFrame;
    hide Updates;
  }

  lemma {:induction false} GoodOnEveryRun(client: Factory, server: Factory, events: seq<Event>, md5: bytes -> bytes)
    requires Made(client, md5) && Made(server, md5) && Printed(md5)
    ensures var t := Run(State(client, server, []), events, md5); Good(t, md5) && Spoken(t)
  {
    if events == [] {
    } else {
      GoodOnEveryRun(client, server, events[..|events| - 1], md5);
      hide Next;
      hide Good;
      hide Spoken;
      NextKeepsGood(Run(State(client, server, []), events[..|events| - 1], md5), events[|events| - 1], md5);
    }
  }

  // ---- The client's reading, as the endpoint does it ----

  /** The factory after `UpdatePaddingScheme` was called on each of these, in order. */
  function UpdatedBy(f: Factory, raws: seq<bytes>, md5: bytes -> bytes): Factory {
    if raws == [] then f else Updated(UpdatedBy(f, raws[..|raws| - 1], md5), raws[|raws| - 1], md5)
  }

  /** The last of the schemes that can be parsed is in force, if there is one. */
  lemma {:induction false} LastParsableWins(f: Factory, raws: seq<bytes>, k: nat, md5: bytes -> bytes)
    requires k < |raws| && NewFactory(raws[k], md5).Some?
    requires forall j :: k < j < |raws| ==> NewFactory(raws[j], md5).None?
    ensures UpdatedBy(f, raws, md5) == NewFactory(raws[k], md5).value
  {
    hide NewFactory;
    var n := |raws| - 1;
    if k < n {
      LastParsableWins(f, raws[..n], k, md5);
    }
  }

  lemma {:induction false} NoneParsable(f: Factory, raws: seq<bytes>, md5: bytes -> bytes)
    requires forall j :: 0 <= j < |raws| ==> NewFactory(raws[j], md5).None?
    ensures UpdatedBy(f, raws, md5) == f
  {
    hide NewFactory;
    if raws != [] {
      NoneParsable(f, raws[..|raws| - 1], md5);
    }
  }

  /** `Adopt`, frame after frame. */
  function AdoptedBy(f: Factory, frames: seq<Frame>, md5: bytes -> bytes): Factory {
    if frames == [] then f else Adopt(AdoptedBy(f, frames[..|frames| - 1], md5), frames[|frames| - 1], md5)
  }

  /** In the switch of a client's receive loop a frame calls `UpdatePaddingScheme` exactly as `Adopt` has it. */
  lemma AdoptIsTheSwitch(client: Factory, s: Session, f: Frame, md5: bytes -> bytes)
    requires s.isClient && f.cmd != CMD_SYN
    ensures var t, n := HandleFrame(s, f), |s.schemes|;
            n <= |t.schemes| && t.schemes[..n] == s.schemes
              && UpdatedBy(client, t.schemes[n..], md5) == Adopt(client, f, md5)
  {
    Duties.HandlingTells(s, f);
    hide HandleFrame;
    hide NewFactory;
    var none: seq<bytes> := [];
    assert UpdatedBy(client, none, md5) == client;
    if IsUpdate(f) {
      assert [f.data][..0] == none;
      assert HandleFrame(s, f).schemes[|s.schemes|..] == [f.data];
    } else {
      assert HandleFrame(s, f).schemes[|s.schemes|..] == none;
    }
  }

  lemma {:induction false} AdoptedAreSchemes(client: Factory, frames: seq<Frame>, md5: bytes -> bytes)
    ensures AdoptedBy(client, frames, md5) == UpdatedBy(client, Duties.Schemes(frames), md5)
  {
    hide NewFactory;
    if frames != [] {
      var n := |frames| - 1;
      AdoptedAreSchemes(client, frames[..n], md5);
      var init := Duties.Schemes(frames[..n]);
      if IsUpdate(frames[n]) {
        assert (init + [frames[n].data])[..|init|] == init;
      } else {
        assert init + [] == init;
      }
    }
  }

  /** Over every run of a client session against any peer, the calls of `UpdatePaddingScheme` leave the factory that
      reading the same frames with `Adopt` does. */
  lemma {:induction false} AdoptOnEveryRun(client: Factory, s0: Session, actions: seq<Action>, s: Session,
                                           md5: bytes -> bytes)
    requires Duties.Starts(s0) && s0.isClient && s == SessionSpec.Run(s0, actions)
    ensures UpdatedBy(client, s.schemes, md5) == AdoptedBy(client, s.handled, md5)
  {
    hide SessionSpec.Run;
    hide UpdatedBy;
    hide AdoptedBy;
    Duties.ObeyedOnEveryRun(s0, actions, s);
    AdoptedAreSchemes(client, s.handled, md5);
  }

  // ---- While the server's scheme changes ----

  /** The scheme of the last reload that took effect. */
  function LastScheme(initial: bytes, events: seq<Event>, md5: bytes -> bytes): bytes {
    if events == [] then initial
    else
      var e := events[|events| - 1];
      if e.Reload? && NewFactory(e.raw, md5).Some? && |e.raw| < U16_LIMIT then e.raw
      else LastScheme(initial, events[..|events| - 1], md5)
  }

  lemma ServerSchemeStep(st: State, e: Event, md5: bytes -> bytes)
    ensures Next(st, e, md5).server.raw ==
              if e.Reload? && NewFactory(e.raw, md5).Some? && |e.raw| < U16_LIMIT then e.raw else st.server.raw
  {
    hide Enumerates;
    hide SettingsFrame;
    hide Answers;
    hide Updates;
    hide Adopt;
  }

  lemma {:induction false} ServerSchemeIsLast(st: State, events: seq<Event>, md5: bytes -> bytes)
    ensures Run(st, events, md5).server.raw == LastScheme(st.server.raw, events, md5)
  {
    if events == [] {
    } else {
      var init := events[..|events| - 1];
      ServerSchemeIsLast(st, init, md5);
      hide Next;
      hide NewFactory;
      ServerSchemeStep(Run(st, init, md5), events[|events| - 1], md5);
    }
  }

  /** Event `j` is the server's answer to the settings of link `i`. */
  predicate IsAnswer(st: State, events: seq<Event>, i: nat, j: nat, md5: bytes -> bytes) {
    && j < |events| && events[j] == ServerReads(i)
    && var t := Run(st, events[..j], md5); i < |t.links| && t.links[i].up.Some?
  }

  /** Nothing has come back on a link whose settings are still under way. */
  predicate Unanswered(st: State) {
    forall i :: 0 <= i < |st.links| && st.links[i].up.Some? ==> st.links[i].down == []
  }

  /** The settings have been read, and the updates that came of it carry `raw`. */
  predicate Carries(l: Link, raw: bytes) {
    l.up.None? && forall k :: 0 <= k < |l.down| && IsUpdate(l.down[k]) ==> l.down[k].data == raw
  }

  lemma NextKeepsUnanswered(st: State, e: Event, md5: bytes -> bytes)
    requires Unanswered(st)
    ensures Unanswered(Next(st, e, md5))
  {
    hide Enumerates;
    hide SettingsFrame;
    hide Answers;
    hide Updates;
    hide Adopt;
    hide NewFactory;
  }

  lemma {:induction false} UnansweredOnEveryRun(client: Factory, server: Factory, events: seq<Event>, md5: bytes -> bytes)
    ensures Unanswered(Run(State(client, server, []), events, md5))
  {
    if events == [] {
    } else {
      UnansweredOnEveryRun(client, server, events[..|events| - 1], md5);
      hide Next;
      hide Unanswered;
      NextKeepsUnanswered(Run(State(client, server, []), events[..|events| - 1], md5), events[|events| - 1], md5);
    }
  }

  lemma AnswerCarries(st: State, i: nat, t: State, md5: bytes -> bytes)
    requires Unanswered(st) && Spoken(st) && st.server.raw != [] && i < |st.links| && st.links[i].up.Some?
    requires t == Next(st, ServerReads(i), md5)
    ensures i < |t.links| && Carries(t.links[i], st.server.raw)
  {
    AnswersAreRight(st.server, st.links[i].up.value);
    hide Answers;
    hide Updates;
  }

  lemma CarriesStays(st: State, e: Event, i: nat, raw: bytes, md5: bytes -> bytes)
    requires i < |st.links| && Carries(st.links[i], raw)
    ensures i < |Next(st, e, md5).links| && Carries(Next(st, e, md5).links[i], raw)
  {
    hide Enumerates;
    hide SettingsFrame;
    hide Answers;
    hide Updates;
    hide Adopt;
    hide NewFactory;
  }

  /** What a link carries was decided when the server read its settings. */
  lemma {:induction false} UpdateIsAsAnswered(client: Factory, server: Factory, events: seq<Event>, i: nat, j: nat,
                                              md5: bytes -> bytes)
    requires Made(client, md5) && Made(server, md5) && Printed(md5) && IsAnswer(State(client, server, []), events, i, j, md5)
    ensures var t := Run(State(client, server, []), events, md5);
            i < |t.links| && Carries(t.links[i], Run(State(client, server, []), events[..j], md5).server.raw)
  {
    hide Next;
    hide Carries;
    hide Unanswered;
    hide Spoken;
    hide Made;
    hide Parsable;
    var n, st := |events| - 1, State(client, server, []);
    if n == j {
      GoodOnEveryRun(client, server, events[..n], md5);
      UnansweredOnEveryRun(client, server, events[..n], md5);
      MadeFromSomething(Run(st, events[..n], md5).server, md5);
      AnswerCarries(Run(st, events[..n], md5), i, Run(st, events, md5), md5);
    } else {
      assert events[..n][..j] == events[..j];
      UpdateIsAsAnswered(client, server, events[..n], i, j, md5);
      CarriesStays(Run(st, events[..n], md5), events[n], i, Run(st, events[..j], md5).server.raw, md5);
    }
  }

  /** Every link is waiting for its answer or has been answered. */
  lemma {:induction false} EachLinkIsAnswered(st: State, events: seq<Event>, i: nat, md5: bytes -> bytes)
    requires st.links == [] && i < |Run(st, events, md5).links| && Run(st, events, md5).links[i].up.None?
    ensures exists j: nat :: IsAnswer(st, events, i, j, md5)
  {
    if events != [] {
      var n := |events| - 1;
      var t := Run(st, events[..n], md5);
      LinkStep(t, events[n], i, md5);
      hide Next;
      if i < |t.links| && t.links[i].up.None? {
        EachLinkIsAnswered(st, events[..n], i, md5);
        var j: nat :| IsAnswer(st, events[..n], i, j, md5);
        assert events[..n][..j] == events[..j];
        assert IsAnswer(st, events, i, j, md5);
      } else {
        assert IsAnswer(st, events, i, n, md5);
      }
    }
  }

  lemma LinkStep(st: State, e: Event, i: nat, md5: bytes -> bytes)
    requires i < |Next(st, e, md5).links| && Next(st, e, md5).links[i].up.None?
    ensures i < |st.links| && (st.links[i].up.None? || e == ServerReads(i))
  {
    hide Enumerates;
    hide SettingsFrame;
    hide Answers;
    hide Updates;
    hide Adopt;
    hide NewFactory;
  }

  /** With the server's scheme changing under way: reading an update makes the client's factory the
      server's, in all its parts, if and only if the last scheme loaded before the server answered this
      session, event `j`, is still the last one loaded. */
  lemma {:induction false} UpdateConvergesIff(client: Factory, server: Factory, events: seq<Event>, st: State,
                                              i: nat, j: nat, md5: bytes -> bytes)
    requires Made(client, md5) && Made(server, md5) && Printed(md5) && st == Run(State(client, server, []), events, md5)
    requires IsAnswer(State(client, server, []), events, i, j, md5)
    requires i < |st.links| && st.links[i].down != [] && IsUpdate(st.links[i].down[0])
    ensures Next(st, ClientReads(i), md5).client == st.server
       <==> LastScheme(server.raw, events[..j], md5) == LastScheme(server.raw, events, md5)
  {
    GoodOnEveryRun(client, server, events, md5);
    UpdateIsAsAnswered(client, server, events, i, j, md5);
    ServerSchemeIsLast(State(client, server, []), events, md5);
    ServerSchemeIsLast(State(client, server, []), events[..j], md5);
    hide Run;
    hide LastScheme;
    hide Spoken;
  }

  /** An update overtaken by a newer one, on another session. */
  function UndoingRun(name: bytes, order: seq<bytes>, raw: bytes): seq<Event> {
    [Connect(name, order), Connect(name, order), ServerReads(0), Reload(raw), ServerReads(1), ClientReads(1), ClientReads(0)]
  }

  lemma RunSnoc(st: State, events: seq<Event>, e: Event, md5: bytes -> bytes)
    ensures Run(st, events + [e], md5) == Next(Run(st, events, md5), e, md5)
  {
    assert (events + [e])[..|events|] == events;
  }

  lemma AnswersStale(server: Factory, f: Frame, md5: bytes)
    requires f.data != [] && AnnouncedMd5(f.data) == md5 != server.md5 && AnnouncedVersion(f.data) == Some(2)
    ensures Answers(server, f) == [Frame(CMD_UPDATE_PADDING_SCHEME, 0, server.raw),
              Frame(CMD_SERVER_SETTINGS, 0, ServerSettingsText())]
  {
    AnswersAre(server, f);
    hide Answers;
    hide ServerSettingsText;
  }

  /** What the server sends when the schemes differ. */
  function Stale(raw: bytes): seq<Frame> {
    [Frame(CMD_UPDATE_PADDING_SCHEME, 0, raw), Frame(CMD_SERVER_SETTINGS, 0, ServerSettingsText())]
  }

  lemma ServerAnswers(st: State, i: nat, f: Frame, md5: bytes -> bytes)
    requires i < |st.links| && st.links[i] == Link(Some(f), [], 0)
    requires f.data != [] && AnnouncedMd5(f.data) != st.server.md5 && AnnouncedVersion(f.data) == Some(2)
    ensures Next(st, ServerReads(i), md5)
         == st.(links := st.links[i := Link(None, Stale(st.server.raw), Updates(Stale(st.server.raw)))])
  {
    hide Updates;
    AnswersStale(st.server, f, AnnouncedMd5(f.data));
    assert [] + Stale(st.server.raw) == Stale(st.server.raw);
  }

  lemma ClientAdopts(st: State, i: nat, raw: bytes, md5: bytes -> bytes)
    requires i < |st.links| && st.links[i].down == Stale(raw) && NewFactory(raw, md5).Some? && raw != []
    ensures Next(st, ClientReads(i), md5)
         == st.(client := NewFactory(raw, md5).value, links := st.links[i := st.links[i].(down := Stale(raw)[1..])])
  {
    hide NewFactory;
    hide ServerSettingsText;
  }

  lemma ConnectsTwice(client: Factory, server: Factory, name: bytes, order: seq<bytes>, md5: bytes -> bytes)
    requires NEWLINE !in name && Enumerates(order, Settings(name, client.md5))
    ensures var l := Link(Some(SettingsFrame(name, client.md5, order)), [], 0);
            var e := Connect(name, order);
            Next(Next(State(client, server, []), e, md5), e, md5) == State(client, server, [l, l])
  {
    hide Enumerates;
    hide SettingsFrame;
    hide Settings;
  }

  lemma UndoingRunIs(st: State, c: Event, name: bytes, order: seq<bytes>, raw: bytes, md5: bytes -> bytes)
    requires c == Connect(name, order)
    ensures Run(st, UndoingRun(name, order, raw), md5)
         == Next(Next(Next(Next(Next(Next(Next(st, c, md5), c, md5), ServerReads(0), md5), Reload(raw), md5),
                           ServerReads(1), md5),
                      ClientReads(1), md5), ClientReads(0), md5)
  {
    hide Next;
    var none: seq<Event> := [];
    assert Run(st, none, md5) == st;
    hide Run;
    RunSnoc(st, none, c, md5);
    RunSnoc(st, none + [c], c, md5);
    RunSnoc(st, none + [c] + [c], ServerReads(0), md5);
    RunSnoc(st, none + [c] + [c] + [ServerReads(0)], Reload(raw), md5);
    var four := none + [c] + [c] + [ServerReads(0)] + [Reload(raw)];
    RunSnoc(st, four, ServerReads(1), md5);
    RunSnoc(st, four + [ServerReads(1)], ClientReads(1), md5);
    RunSnoc(st, four + [ServerReads(1)] + [ClientReads(1)], ClientReads(0), md5);
    assert UndoingRun(name, order, raw) == four + [ServerReads(1)] + [ClientReads(1)] + [ClientReads(0)];
  }

  lemma Reloads(st: State, raw: bytes, md5: bytes -> bytes)
    requires NewFactory(raw, md5).Some? && |raw| < U16_LIMIT
    ensures Next(st, Reload(raw), md5) == st.(server := NewFactory(raw, md5).value)
    ensures NewFactory(raw, md5).value.raw == raw && NewFactory(raw, md5).value.md5 == md5(raw) && raw != []
  {
  }

  lemma NoUpdateLeft(st: State, a: bytes, b: bytes)
    requires |st.links| == 2 && st.links[0].down == Stale(a)[1..] && st.links[1].down == Stale(b)[1..]
    ensures forall i, k :: 0 <= i < |st.links| && 0 <= k < |st.links[i].down| ==> !IsUpdate(st.links[i].down[k])
  {
    hide ServerSettingsText;
  }

  /** The server answers one session, changes its scheme, answers another; the client reads the second
      answer and then the first: it has the scheme that the server has given up, and no update is under
      way any more. */
  lemma {:induction false} UpdateIsUndone(client: Factory, server: Factory, name: bytes, order: seq<bytes>, raw: bytes,
                                          t: State, md5: bytes -> bytes)
    requires t == Run(State(client, server, []), UndoingRun(name, order, raw), md5)
    requires Made(client, md5) && Made(server, md5) && Printed(md5) && NEWLINE !in name
             && Enumerates(order, Settings(name, client.md5))
    requires NewFactory(raw, md5).Some? && |raw| < U16_LIMIT
    requires client.md5 != server.md5 && client.md5 != md5(raw) && server.raw != raw
    ensures t.client == server && t.server.raw == raw && t.client != t.server
    ensures forall i, k :: 0 <= i < |t.links| && 0 <= k < |t.links[i].down| ==> !IsUpdate(t.links[i].down[k])
  {
    MadeMd5(client, md5);
    MadeFromSomething(server, md5);
    hide Next;
    hide Run;
    hide NewFactory;
    hide Stale;
    hide Updates;
    var f := SettingsFrame(name, client.md5, order);
    SettingsAnnounce(name, client.md5, order);
    assert f.data != [] && AnnouncedMd5(f.data) == client.md5 && AnnouncedVersion(f.data) == Some(2);
    hide AnnouncedMd5;
    hide AnnouncedVersion;
    hide Enumerates;
    hide SettingsFrame;
    var st := State(client, server, []);
    UndoingRunIs(st, Connect(name, order), name, order, raw, md5);
    ConnectsTwice(client, server, name, order, md5);
    var s2 := State(client, server, [Link(Some(f), [], 0), Link(Some(f), [], 0)]);
    ServerAnswers(s2, 0, f, md5);
    var s3 := Next(s2, ServerReads(0), md5);
    Reloads(s3, raw, md5);
    var s4 := Next(s3, Reload(raw), md5);
    ServerAnswers(s4, 1, f, md5);
    var s5 := Next(s4, ServerReads(1), md5);
    ClientAdopts(s5, 1, raw, md5);
    var s6 := Next(s5, ClientReads(1), md5);
    ClientAdopts(s6, 0, server.raw, md5);
    NoUpdateLeft(Next(s6, ClientReads(0), md5), server.raw, raw);
  }

  lemma MadeMd5(f: Factory, md5: bytes -> bytes)
    requires Made(f, md5) && Printed(md5)
    ensures NEWLINE !in f.md5
  {
  }

  /** A stand-in for md5: the printed `stop` of a scheme. */
  function StopText(raw: bytes): bytes { Lookup(FromBytes(raw), Ascii("stop")) }

  lemma StopTextIsPrinted()
    ensures Printed(StopText)
  {
    forall raw ensures NEWLINE !in StopText(raw) {
      hide Ascii;
      SplitParts(raw, NEWLINE);
      FromLinesClean(Split(raw, NEWLINE));
    }
  }

  lemma SmallScheme(stop: nat)
    requires stop < 10
    ensures var f := NewFactory(OneRule(stop, 1, 1), StopText);
            f.Some? && f.value.stop == stop && f.value.md5 == Itoa(stop) && |f.value.raw| < U16_LIMIT
  {
    hide NewFactory;
    hide FromBytes;
    OneRuleMap(stop, 1, 1);
    StopIsNoNumber(1);
    OneRuleMeans(stop, 1, 1, [], StopText);
    assert |Itoa(stop)| == 1 && |Itoa(1)| == 1;
    SmallText(stop);
    hide OneRule;
    hide Itoa;
  }

  lemma SmallText(stop: nat)
    requires |Itoa(stop)| == 1 && |Itoa(1)| == 1
    ensures |OneRule(stop, 1, 1)| < U16_LIMIT
  {
    hide Itoa;
    var a, b := Ascii("stop") + [EQUALS] + Itoa(stop), Itoa(1) + [EQUALS] + Rule(1);
    assert [a, b][1..] == [b];
    assert Join([b], NEWLINE) == b;
    assert OneRule(stop, 1, 1) == a + [NEWLINE] + b;
  }

  lemma ItoaDiffers(a: nat, b: nat)
    requires a < INT64_LIMIT && b < INT64_LIMIT && a != b
    ensures Itoa(a) != Itoa(b)
  {
    hide Itoa;
    hide ParseInt;
    ParseItoaIff(a);
    ParseItoaIff(b);
  }

  lemma SettingsKeys(md5: bytes)
    ensures Enumerates([Ascii(VERSION_KEY), Ascii(CLIENT_KEY), Ascii(MD5_KEY)], Settings([], md5))
  {
    KeysDiffer();
    hide Ascii;
  }

  /** Schemes that this can happen to: those with stops 1, 2 and 3. */
  lemma {:induction false} SchemesToUndo() returns (client: Factory, server: Factory, raw: bytes, order: seq<bytes>)
    ensures client.stop == 1 && server.stop == 2 && raw == OneRule(3, 1, 1)
    ensures Made(client, StopText) && Made(server, StopText) && Printed(StopText)
            && Enumerates(order, Settings([], client.md5))
    ensures NewFactory(raw, StopText).Some? && |raw| < U16_LIMIT
    ensures client.md5 != server.md5 && client.md5 != StopText(raw) && server.raw != raw
  {
    hide NewFactory;
    hide OneRule;
    hide Itoa;
    hide Ascii;
    hide Settings;
    hide Enumerates;
    hide StopText;
    SmallScheme(1);
    SmallScheme(2);
    SmallScheme(3);
    ItoaDiffers(1, 2);
    ItoaDiffers(1, 3);
    StopTextIsPrinted();
    raw := OneRule(3, 1, 1);
    client, server := NewFactory(OneRule(1, 1, 1), StopText).value, NewFactory(OneRule(2, 1, 1), StopText).value;
    SettingsKeys(client.md5);
    order := [Ascii(VERSION_KEY), Ascii(CLIENT_KEY), Ascii(MD5_KEY)];
  }

  // ---- While the server's scheme stays the same ----

  /** Every update under way carries the server's scheme. */
  predicate Current(st: State) {
    forall i, k :: 0 <= i < |st.links| && 0 <= k < |st.links[i].down| && IsUpdate(st.links[i].down[k]) ==>
      st.links[i].down[k].data == st.server.raw
  }

  predicate NoReload(events: seq<Event>) {
    forall k :: 0 <= k < |events| ==> !events[k].Reload?
  }

  lemma NextKeepsCurrent(st: State, e: Event, md5: bytes -> bytes)
    requires Printed(md5) && Made(st.client, md5) && Made(st.server, md5) && Current(st) && Spoken(st) && !e.Reload?
    ensures var t := Next(st, e, md5); Made(t.client, md5) && t.server == st.server && Current(t) && Spoken(t)
    ensures e.ClientReads? && e.i < |st.links| && st.links[e.i].down != [] && IsUpdate(st.links[e.i].down[0]) ==>
              Next(st, e, md5).client == st.server
    ensures st.client == st.server ==> Next(st, e, md5).client == st.server
  {
    NextKeepsLinks(st, e, md5);
    NextKeepsFactories(st, e, md5);
    hide Next;
    hide Current;
    hide Spoken;
  }

  lemma NextKeepsFactories(st: State, e: Event, md5: bytes -> bytes)
    requires Made(st.client, md5) && Made(st.server, md5) && Current(st) && !e.Reload?
    ensures var t := Next(st, e, md5); Made(t.client, md5) && t.server == st.server
    ensures e.ClientReads? && e.i < |st.links| && st.links[e.i].down != [] && IsUpdate(st.links[e.i].down[0]) ==>
              Next(st, e, md5).client == st.server
    ensures st.client == st.server ==> Next(st, e, md5).client == st.server
  {
    hide Enumerates;
    hide Answers;
    hide SettingsFrame;
    hide Updates;
  }

  lemma NextKeepsLinks(st: State, e: Event, md5: bytes -> bytes)
    requires Printed(md5) && Made(st.client, md5) && Made(st.server, md5) && Current(st) && Spoken(st) && !e.Reload?
    ensures Current(Next(st, e, md5)) && Spoken(Next(st, e, md5))
  {
    NextKeepsSpoken(st, e, md5);
    MadeFromSomething(st.server, md5);
    hide NewFactory;
    hide Adopt;
    hide Enumerates;
    hide Answers;
    hide Updates;
    hide SettingsFrame;
    if e.ServerReads? && e.i < |st.links| && st.links[e.i].up.Some? {
      AnswersAreRight(st.server, st.links[e.i].up.value);
    }
  }

  /** Sessions from number `n` on: opened with the server's md5, never sent an update. */
  predicate Untouched(st: State, n: nat) {
    forall i :: n <= i < |st.links| ==>
      st.links[i].updates == 0 && (st.links[i].up.Some? ==> AnnouncedMd5(st.links[i].up.value.data) == st.server.md5)
  }

  lemma NextKeepsUntouched(st: State, e: Event, md5: bytes -> bytes, n: nat)
    requires Printed(md5) && Made(st.server, md5) && Spoken(st) && !e.Reload? && st.client == st.server
    requires n <= |st.links| && Untouched(st, n)
    ensures Untouched(Next(st, e, md5), n) && n <= |Next(st, e, md5).links|
  {
    hide Enumerates;
    hide AnnouncedMd5;
    match e
    case Connect(name, order) =>
      if NEWLINE !in name && Enumerates(order, Settings(name, st.client.md5)) {
        SettingsAnnounce(name, st.client.md5, order);
        hide Join;
        hide Lines;
      }
    case ServerReads(i) =>
      if i < |st.links| && st.links[i].up.Some? {
        AnswersAreRight(st.server, st.links[i].up.value);
        hide Answers;
      }
    case ClientReads(i) =>
    case Reload(raw) =>
  }

  lemma {:induction false} StaysConverged(st: State, events: seq<Event>, md5: bytes -> bytes)
    requires Printed(md5) && Made(st.server, md5) && Current(st) && Spoken(st) && st.client == st.server && NoReload(events)
    ensures var t := Run(st, events, md5);
            && t.client == t.server == st.server && Current(t) && Spoken(t)
            && |st.links| <= |t.links| && Untouched(t, |st.links|)
  {
    if events == [] {
    } else {
      var init := events[..|events| - 1];
      StaysConverged(st, init, md5);
      var t := Run(st, init, md5);
      hide Next;
      NextKeepsCurrent(t, events[|events| - 1], md5);
      NextKeepsUntouched(t, events[|events| - 1], md5, |st.links|);
    }
  }

  lemma {:induction false} CurrentOnEveryRun(st: State, events: seq<Event>, md5: bytes -> bytes)
    requires Printed(md5) && Made(st.client, md5) && Made(st.server, md5) && Current(st) && Spoken(st) && NoReload(events)
    ensures var t := Run(st, events, md5);
            Made(t.client, md5) && t.server == st.server && Current(t) && Spoken(t)
  {
    if events == [] {
    } else {
      CurrentOnEveryRun(st, events[..|events| - 1], md5);
      hide Next;
      NextKeepsCurrent(Run(st, events[..|events| - 1], md5), events[|events| - 1], md5);
    }
  }

  /** Convergence. A client with any scheme, and no session yet, deals with a server whose scheme does not
      change. Whatever sessions it opens and however their messages interleave, once it has processed one
      scheme update its factory is the server's, in raw bytes, md5, stop and rules; it stays so; and no
      session opened from then on is sent another update. */
  lemma {:induction false} Convergence(client: Factory, server: Factory, before: seq<Event>, st0: State, i: nat, st: State,
                                       after: seq<Event>, t: State, md5: bytes -> bytes)
    requires Printed(md5) && Made(client, md5) && Made(server, md5) && NoReload(before) && NoReload(after)
    requires st0 == Run(State(client, server, []), before, md5)
    requires i < |st0.links| && st0.links[i].down != [] && IsUpdate(st0.links[i].down[0])
    requires st == Next(st0, ClientReads(i), md5) && t == Run(st, after, md5)
    ensures st.client == server && t.client == server
    ensures forall j :: |st.links| <= j < |t.links| ==> t.links[j].updates == 0
  {
    CurrentOnEveryRun(State(client, server, []), before, md5);
    NextKeepsCurrent(st0, ClientReads(i), md5);
    hide Run;
    hide Next;
    hide Current;
    hide Spoken;
    StaysConverged(st, after, md5);
  }
}
