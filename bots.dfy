/** Bot identifiers: a bot's display name with every space replaced by an underscore
    (autoleague/bots.py). */
module Bots {

  type BotId = string

  /** `name.replace(" ", "_")`. */
  function FmtBotName(name: string): (id: BotId)
    ensures |id| == |name|
    ensures forall i :: 0 <= i < |name| ==> id[i] == (if name[i] == ' ' then '_' else name[i])
  {
    if name == [] then [] else [if name[0] == ' ' then '_' else name[0]] + FmtBotName(name[1..])
  }

  /** `name.replace("_", " ")`. */
  function DefmtBotName(id: BotId): (name: string)
    ensures |name| == |id|
    ensures forall i :: 0 <= i < |id| ==> name[i] == (if id[i] == '_' then ' ' else id[i])
  {
    if id == [] then [] else [if id[0] == '_' then ' ' else id[0]] + DefmtBotName(id[1..])
  }

  lemma FmtHasNoSpace(name: string)
    ensures ' ' !in FmtBotName(name)
  {
    var id := FmtBotName(name);
    forall i | 0 <= i < |id| ensures id[i] != ' ' { }
  }

  lemma DefmtHasNoUnderscore(id: BotId)
    ensures '_' !in DefmtBotName(id)
  {
    var name := DefmtBotName(id);
    forall i | 0 <= i < |name| ensures name[i] != '_' { }
  }

  /** Formatting and then unformatting gives the name back exactly when the name has no underscore. */
  lemma DefmtFmtRoundTrip(name: string)
    ensures DefmtBotName(FmtBotName(name)) == name <==> '_' !in name
  {
    var back := DefmtBotName(FmtBotName(name));
    if '_' in name {
      var i :| 0 <= i < |name| && name[i] == '_';
      assert back[i] == ' ';
    } else {
      assert back == name;
    }
  }

  /** Unformatting and then formatting gives the id back exactly when the id has no space. */
  lemma FmtDefmtRoundTrip(id: BotId)
    ensures FmtBotName(DefmtBotName(id)) == id <==> ' ' !in id
  {
    var back := FmtBotName(DefmtBotName(id));
    if ' ' in id {
      var i :| 0 <= i < |id| && id[i] == ' ';
      assert back[i] == '_';
    } else {
      assert back == id;
    }
  }

  lemma FmtIdempotent(name: string)
    ensures FmtBotName(FmtBotName(name)) == FmtBotName(name)
  {
  }

  lemma DefmtIdempotent(id: BotId)
    ensures DefmtBotName(DefmtBotName(id)) == DefmtBotName(id)
  {
  }
}
