/** How a program reads its command line: options that take the next argument for their value, and switches. */
module CommandLine {

  datatype Reading = Reading(options: map<string, string>, switches: set<string>)

  /** `valued` are the options that take a value; of repeated ones the last counts. */
  function Read(args: seq<string>, valued: set<string>): Reading
    decreases |args|
  {
    if args == [] then Reading(map[], {})
    else if args[0] in valued && |args| > 1 then
      var rest := Read(args[2..], valued);
      rest.(options := map[args[0] := args[1]] + rest.options)
    else
      var rest := Read(args[1..], valued);
      rest.(switches := rest.switches + {args[0]})
  }

  lemma OptionIsRead(option: string, value: string, rest: seq<string>, valued: set<string>)
    requires option in valued
    ensures var r := Read(rest, valued);
            Read([option, value] + rest, valued) == r.(options := map[option := value] + r.options)
  {
    assert ([option, value] + rest)[2..] == rest;
  }

  lemma SwitchIsRead(switch: string, rest: seq<string>, valued: set<string>)
    requires switch !in valued
    ensures var r := Read(rest, valued); Read([switch] + rest, valued) == r.(switches := r.switches + {switch})
  {
    assert ([switch] + rest)[1..] == rest;
  }

  /** Options and their values in turn. */
  function Pairs(options: seq<string>, values: seq<string>): seq<string>
    requires |options| == |values|
  {
    if options == [] then [] else [options[0], values[0]] + Pairs(options[1..], values[1..])
  }

  lemma {:induction false} OptionsAreRead(options: seq<string>, values: seq<string>, valued: set<string>)
    requires |options| == |values| && forall i, j :: 0 <= i < j < |options| ==> options[i] != options[j]
    requires forall option :: option in options ==> option in valued
    ensures var r := Read(Pairs(options, values), valued);
            && r.switches == {}
            && (forall k :: 0 <= k < |options| ==> options[k] in r.options && r.options[options[k]] == values[k])
            && (forall option :: option in r.options ==> option in options)
  {
    if options != [] {
      OptionsAreRead(options[1..], values[1..], valued);
      OptionIsRead(options[0], values[0], Pairs(options[1..], values[1..]), valued);
      forall k | 0 < k < |options| ensures options[1..][k - 1] == options[k] && values[1..][k - 1] == values[k] {
      }
    }
  }
}
