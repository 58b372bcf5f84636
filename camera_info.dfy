/** The camera lookup tables of droid/camera_utils/info.py: which serial
    number is the hand camera and which the static camera, their type
    strings and their display names. The serial numbers are the configured
    values of droid/misc/parameters.py. */
module CameraInfo {
  import opened Wrappers
  import TimestepProcessing

  const HandCameraId: string := "138422074005"
  const StaticCameraId: string := "140122076178"

  /** `camera_type_dict`: serial number to type number. */
  const CameraTypeDict: map<string, int> := map[HandCameraId := 0, StaticCameraId := 1]

  /** `camera_type_to_string_dict`. */
  const CameraTypeToString: map<int, string> := map[0 := "hand_camera", 1 := "static_camera"]

  /** `camera_name_dict`. */
  const CameraNameDict: map<string, string> := map[HandCameraId := "Hand Camera", StaticCameraId := "Static Camera"]

  /** Every registered type number has a type string, so a registered
      lookup never fails. */
  lemma RegisteredTypesHaveNames()
    ensures forall id :: id in CameraTypeDict ==> CameraTypeDict[id] in CameraTypeToString
  {
  }

  /** `get_camera_name`: the display name, or the id itself when it is not
      registered. */
  function GetCameraName(camId: string): (name: string)
    ensures camId == HandCameraId ==> name == "Hand Camera"
    ensures camId == StaticCameraId ==> name == "Static Camera"
    ensures camId != HandCameraId && camId != StaticCameraId ==> name == camId
  {
    if camId in CameraNameDict then CameraNameDict[camId] else camId
  }

  /** `get_camera_type`: the type string of a registered camera, `None`
      otherwise. */
  function GetCameraType(camId: string): (t: Option<string>)
    ensures camId == HandCameraId ==> t == Some("hand_camera")
    ensures camId == StaticCameraId ==> t == Some("static_camera")
    ensures t.None? <==> camId !in CameraTypeDict
  {
    if camId !in CameraTypeDict then None
    else
      RegisteredTypesHaveNames();
      Some(CameraTypeToString[CameraTypeDict[camId]])
  }

  /** The timestep processor, given these tables, names both cameras and
      never raises for them. */
  lemma TablesNameEveryCamera()
    ensures TimestepProcessing.CameraTypeNames(CameraTypeDict, CameraTypeToString)
            == Ok(map[HandCameraId := "hand_camera", StaticCameraId := "static_camera"])
  {
    var names := TimestepProcessing.CameraTypeNames(CameraTypeDict, CameraTypeToString);
    assert names.Ok?;
    assert names.value.Keys == {HandCameraId, StaticCameraId};
    assert names.value[HandCameraId] == "hand_camera";
    assert names.value[StaticCameraId] == "static_camera";
    assert names.value == map[HandCameraId := "hand_camera", StaticCameraId := "static_camera"];
  }
}
