/**
 The measurement record shared by the three manager threads (config.h).
 */
module Measurements {

  // sensor_id_t is a 16-bit unsigned integer.
  type SensorId = i: int | 0 <= i < 0x1_0000

  // sensor_data_t: the temperature is a double in the program and a real here.
  datatype Measurement = Measurement(id: SensorId, value: real, ts: int)

  datatype Option<+T> = None | Some(value: T)
}
