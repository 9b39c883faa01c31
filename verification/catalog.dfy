/**
 * The fixed catalogs the proxy serves when it cannot or may not reach the
 * speech service (`MOCK_VOICES`, `MOCK_MODELS` in server.ts), and their JSON
 * form as the proxy sends them.
 */
module Catalog {
  import opened Json

  /** A catalog voice: identifier, display name and its three labels. */
  datatype Voice = Voice(voiceId: string, name: string, gender: string, accent: string, description: string)

  /** A catalog model: identifier and display name. */
  datatype Model = Model(modelId: string, name: string)

  const MockVoices: seq<Voice> := [
    Voice("21m00Tcm4TlvDq8ikWAM", "Rachel", "female", "american", "Truyền cảm"),
    Voice("pNInz6obpgDQGcFmaJgB", "Adam", "male", "american", "Trầm ấm"),
    Voice("EXAVITQu4vr4xnSDxMaL", "Bella", "female", "american", "Trẻ trung"),
    Voice("ErXw7Sg8S8nC9S1f9S8n", "Antoni", "male", "american", "Chững chạc"),
    Voice("VR6AewyH7oxUXjzD49uU", "Arnold", "male", "american", "Mạnh mẽ"),
    Voice("TxGEqnHW47M3Ko8QbtCc", "Josh", "male", "american", "Năng động"),
    Voice("MF3mGyEYCl7XYW7ICZ8u", "Elli", "female", "american", "Ngọt ngào"),
    Voice("AZnzlk1XhkDUD0M8zjUM", "Domi", "female", "american", "Chuyên nghiệp"),
    Voice("ThT52p0601", "Dorothy", "female", "american", "Kể chuyện"),
    Voice("Lcf7m35p0601", "Emily", "female", "american", "Nhẹ nhàng"),
    Voice("GBv7mTt0atIp3Y8iH6PL", "Thomas", "male", "american", "Tin tức"),
    Voice("ZQe5f7m35p0601", "James", "male", "american", "Thuyết minh"),
    Voice("onw5f7m35p0601", "Daniel", "male", "american", "Quảng cáo"),
    Voice("pMs7m35p0601", "Serena", "female", "american", "Êm ái"),
    Voice("z9f7m35p0601", "Glinda", "female", "american", "Phù thủy"),
    Voice("yoZf7m35p0601", "Sam", "male", "american", "Thân thiện"),
    Voice("IKne3meS2pL762p0601", "Charlie", "male", "american", "Tinh nghịch"),
    Voice("jBf7m35p0601", "Gigi", "female", "american", "Hoạt hình"),
    Voice("jsf7m35p0601", "Freya", "female", "american", "Bí ẩn"),
    Voice("oP7m35p0601", "Grace", "female", "american", "Sang trọng"),
    Voice("piTKp0601", "Nicole", "female", "american", "Thì thầm"),
    Voice("t0f7m35p0601", "Jessie", "female", "american", "Cá tính"),
    Voice("wVf7m35p0601", "Ryan", "male", "american", "Thể thao"),
    Voice("zE5f7m35p0601", "Giovanni", "male", "american", "Ngoại quốc"),
    Voice("zrHi7m35p0601", "Mimi", "female", "american", "Dễ thương"),
    Voice("N2lVSf6p0601", "Callum", "male", "american", "Khàn đặc"),
    Voice("ODq5zWAf6p0601", "Patrick", "male", "american", "Hùng hồn"),
    Voice("SOYf8p0601", "Harry", "male", "american", "Trẻ em"),
    Voice("TX3LPp0601", "Liam", "male", "american", "Ấm áp"),
    Voice("XB0f7m35p0601", "Charlotte", "female", "american", "Kiêu kỳ"),
    Voice("Xb7m35p0601", "Alice", "female", "american", "Hiền hậu"),
    Voice("Zlb1m35p0601", "Joseph", "male", "american", "Nghiêm túc"),
    Voice("bVp7m35p0601", "Jeremy", "male", "american", "Vui vẻ"),
    Voice("flqf7m35p0601", "Michael", "male", "american", "Lịch lãm"),
    Voice("g5f7m35p0601", "Ethan", "male", "american", "Trầm mặc"),
    Voice("vi_vn_male_1", "Minh (Nam - Miền Bắc)", "male", "vietnamese", "Mạnh mẽ"),
    Voice("vi_vn_female_1", "Linh (Nữ - Miền Bắc)", "female", "vietnamese", "Dịu dàng"),
    Voice("vi_vn_male_2", "Hùng (Nam - Miền Nam)", "male", "vietnamese", "Hào sảng"),
    Voice("vi_vn_female_2", "Mai (Nữ - Miền Nam)", "female", "vietnamese", "Ngọt ngào")
  ]

  const MockModels: seq<Model> := [
    Model("eleven_multilingual_v2", "Multilingual v2 (Đa ngôn ngữ - Tốt nhất)"),
    Model("eleven_turbo_v2", "Turbo v2 (Tốc độ cao)"),
    Model("eleven_turbo_v2_5", "Turbo v2.5 (Mới nhất)"),
    Model("eleven_flash_v1", "Flash v1 (Siêu nhanh)"),
    Model("eleven_v3_alpha", "v3 Alpha (Thử nghiệm)")
  ]

  /** A voice as the proxy serves it: `{voice_id, name, labels: {gender, accent, description}}`. */
  function VoiceJson(v: Voice): (j: Value)
    ensures j.Obj? && j.fields.Keys == {"voice_id", "name", "labels"}
    ensures j.fields["voice_id"] == Str(v.voiceId) && j.fields["name"] == Str(v.name)
  {
    Obj(map[
      "voice_id" := Str(v.voiceId),
      "name" := Str(v.name),
      "labels" := Obj(map["gender" := Str(v.gender), "accent" := Str(v.accent), "description" := Str(v.description)])
    ])
  }

  /** A model as the proxy serves it: `{model_id, name}`. */
  function ModelJson(m: Model): (j: Value)
    ensures j.Obj? && j.fields.Keys == {"model_id", "name"}
    ensures j.fields["model_id"] == Str(m.modelId) && j.fields["name"] == Str(m.name)
  {
    Obj(map["model_id" := Str(m.modelId), "name" := Str(m.name)])
  }

  /** `MOCK_VOICES` as a JSON array, same order. */
  function MockVoicesJson(): (j: seq<Value>)
    ensures |j| == |MockVoices|
    ensures forall i :: 0 <= i < |j| ==> j[i] == VoiceJson(MockVoices[i])
  {
    seq(|MockVoices|, i requires 0 <= i < |MockVoices| => VoiceJson(MockVoices[i]))
  }

  /** `MOCK_MODELS` as a JSON array, same order, no tag. */
  function MockModelsJson(): (j: seq<Value>)
    ensures |j| == |MockModels|
    ensures forall i :: 0 <= i < |j| ==> j[i] == ModelJson(MockModels[i])
  {
    seq(|MockModels|, i requires 0 <= i < |MockModels| => ModelJson(MockModels[i]))
  }
}
