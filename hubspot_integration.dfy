/** The HubSpot settings panel (components/admin/HubSpotIntegration.tsx):
    portal id, form GUID and a list of field mappings, loaded from the
    quiz's stored integrations and saved back as one integration record.
    The server calls are parameters: `Load` receives what
    `getIntegrations` answered and `HandleSave` what `saveIntegration`
    answered. */
module HubSpotIntegration {
  import opened Common

  /** One mapping from a quiz field to a HubSpot property. */
  datatype Mapping = Mapping(source: string, hubspot: string)

  datatype MappingField = Source | HubSpot

  /** A stored HubSpot configuration; any property may be missing. */
  datatype StoredConfig = StoredConfig(portalId: Option<string>, formGuid: Option<string>, mappings: Option<seq<Mapping>>)

  /** One stored integration of the quiz, of whatever type. */
  datatype Integration = Integration(id: string, integrationType: string, config: Option<StoredConfig>)

  /** The configuration the panel saves. */
  datatype Config = Config(portalId: string, formGuid: string, mappings: seq<Mapping>)

  /** The argument of `saveIntegration`. */
  datatype SaveRequest = SaveRequest(id: Option<string>, quizId: string, integrationType: string, config: Config, isActive: bool)

  /** What `saveIntegration` answers: success, and the saved record's id when
      one came back. */
  datatype SaveResult = SaveResult(success: bool, integrationId: Option<string>)

  /** `integrations.find(i => i.type === 'hubspot')`, as an index. */
  function FirstHubSpot(integrations: seq<Integration>): (r: Option<nat>)
    ensures r.Some? ==> r.value < |integrations| && integrations[r.value].integrationType == "hubspot"
    ensures r.Some? ==> forall j :: 0 <= j < r.value ==> integrations[j].integrationType != "hubspot"
    ensures r.None? <==> forall j :: 0 <= j < |integrations| ==> integrations[j].integrationType != "hubspot"
  {
    if integrations == [] then None
    else if integrations[0].integrationType == "hubspot" then Some(0)
    else match FirstHubSpot(integrations[1..])
      case None => None
      case Some(i) => Some(i + 1)
  }

  /** `mappings.filter((_, i) => i !== index)`, with `position` the index of
      the first element of `s` in the whole list. */
  function WithoutPosition(s: seq<Mapping>, index: nat, position: nat): seq<Mapping>
    decreases |s|
  {
    if s == [] then []
    else (if position == index then [] else [s[0]]) + WithoutPosition(s[1..], index, position + 1)
  }

  function RemoveMappingAt(mappings: seq<Mapping>, index: nat): seq<Mapping> {
    WithoutPosition(mappings, index, 0)
  }

  /** The filter on positions removes exactly element `index`, keeps the
      others in order, and changes nothing when `index` is past the end. */
  lemma {:induction false} WithoutPositionIsRemoveAt(s: seq<Mapping>, index: nat, position: nat)
    ensures WithoutPosition(s, index, position) == if position <= index then RemoveAt(s, index - position) else s
    decreases |s|
  {
    if s != [] {
      WithoutPositionIsRemoveAt(s[1..], index, position + 1);
      if position == index {
        assert RemoveAt(s, 0) == s[1..];
        if position + 1 <= index {
        } else {
          assert WithoutPosition(s[1..], index, position + 1) == s[1..];
        }
      } else if position < index {
        assert RemoveAt(s, index - position) == [s[0]] + RemoveAt(s[1..], index - position - 1);
      } else {
        assert s == [s[0]] + s[1..];
      }
    }
  }

  lemma RemoveMappingRemovesExactlyOne(mappings: seq<Mapping>, index: nat)
    ensures RemoveMappingAt(mappings, index) == RemoveAt(mappings, index)
    ensures index < |mappings| ==> |RemoveMappingAt(mappings, index)| == |mappings| - 1
    ensures index >= |mappings| ==> RemoveMappingAt(mappings, index) == mappings
  {
    WithoutPositionIsRemoveAt(mappings, index, 0);
  }

  /** `{ ...m, [field]: value }`. */
  function SetMappingField(m: Mapping, field: MappingField, value: string): Mapping {
    match field
    case Source => m.(source := value)
    case HubSpot => m.(hubspot := value)
  }

  /** Setting a field changes that field only, and setting it back undoes it. */
  lemma SetMappingFieldOnly(m: Mapping, field: MappingField, value: string)
    ensures field == Source ==> SetMappingField(m, field, value) == Mapping(value, m.hubspot)
    ensures field == HubSpot ==> SetMappingField(m, field, value) == Mapping(m.source, value)
    ensures SetMappingField(SetMappingField(m, field, value), field, if field == Source then m.source else m.hubspot) == m
  {
  }

  class Panel {
    const quizId: string
    var portalId: string
    var formGuid: string
    var mappings: seq<Mapping>
    var integrationId: Option<string>
    /** The `saveIntegration` calls made so far. */
    var saveRequests: seq<SaveRequest>

    constructor (quizId: string)
      ensures this.quizId == quizId && portalId == "" && formGuid == "" && mappings == []
      ensures integrationId == None && saveRequests == []
    {
      this.quizId := quizId;
      portalId := "";
      formGuid := "";
      mappings := [];
      integrationId := None;
      saveRequests := [];
    }

    /** The load effect: the first HubSpot integration gives its id and, when
        it has a configuration, the three values, each missing one falling
        back to its empty default. Without a HubSpot integration nothing
        changes. */
    method Load(integrations: seq<Integration>)
      modifies this`portalId, this`formGuid, this`mappings, this`integrationId
      ensures FirstHubSpot(integrations).None? ==>
        integrationId == old(integrationId) && portalId == old(portalId) && formGuid == old(formGuid) && mappings == old(mappings)
      ensures FirstHubSpot(integrations).Some? ==>
        integrationId == Some(integrations[FirstHubSpot(integrations).value].id)
      ensures FirstHubSpot(integrations).Some? && integrations[FirstHubSpot(integrations).value].config.None? ==>
        portalId == old(portalId) && formGuid == old(formGuid) && mappings == old(mappings)
      ensures FirstHubSpot(integrations).Some? && integrations[FirstHubSpot(integrations).value].config.Some? ==>
        var cfg := integrations[FirstHubSpot(integrations).value].config.value;
        portalId == cfg.portalId.GetOr("") && formGuid == cfg.formGuid.GetOr("") && mappings == cfg.mappings.GetOr([])
    {
      var found := FirstHubSpot(integrations);
      if found.Some? {
        var hubspot := integrations[found.value];
        integrationId := Some(hubspot.id);
        if hubspot.config.Some? {
          var cfg := hubspot.config.value;
          portalId := cfg.portalId.GetOr("");
          formGuid := cfg.formGuid.GetOr("");
          mappings := cfg.mappings.GetOr([]);
        }
      }
    }

    method SetPortalId(value: string)
      modifies this`portalId
      ensures portalId == value
    {
      portalId := value;
    }

    method SetFormGuid(value: string)
      modifies this`formGuid
      ensures formGuid == value
    {
      formGuid := value;
    }

    /** `addMapping`: one blank mapping at the end. */
    method AddMapping()
      modifies this`mappings
      ensures mappings == old(mappings) + [Mapping("", "")]
    {
      mappings := mappings + [Mapping("", "")];
    }

    /** `updateMapping`: a copy with one field of element `index` replaced;
        the index comes from the rendered list. */
    method UpdateMapping(index: nat, field: MappingField, value: string)
      requires index < |mappings|
      modifies this`mappings
      ensures mappings == old(mappings)[index := SetMappingField(old(mappings)[index], field, value)]
    {
      var newMappings := mappings;
      newMappings := newMappings[index := SetMappingField(newMappings[index], field, value)];
      mappings := newMappings;
    }

    method RemoveMapping(index: nat)
      modifies this`mappings
      ensures mappings == RemoveMappingAt(old(mappings), index)
    {
      mappings := RemoveMappingAt(mappings, index);
    }

    /** `handleSave`: sends exactly the three values as the configuration of
        an active HubSpot integration under the known id, and keeps the id
        the server gives back on success. */
    method HandleSave(result: SaveResult)
      modifies this`saveRequests, this`integrationId
      ensures saveRequests == old(saveRequests) +
        [SaveRequest(old(integrationId), quizId, "hubspot", Config(portalId, formGuid, mappings), true)]
      ensures result.success && result.integrationId.Some? ==> integrationId == result.integrationId
      ensures !(result.success && result.integrationId.Some?) ==> integrationId == old(integrationId)
    {
      var config := Config(portalId, formGuid, mappings);
      saveRequests := saveRequests + [SaveRequest(integrationId, quizId, "hubspot", config, true)];
      if result.success && result.integrationId.Some? {
        integrationId := result.integrationId;
      }
    }
  }
}
