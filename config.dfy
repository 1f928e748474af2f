/**
 * Constants shared by the load tester and the two servers under test
 * (Config.java, ServerConfig.java, config.js), and the wire-level chunk
 * type the clients write.
 */
module Config {

  /** The token a client sends to say "ready to receive"; identical in all three configs. */
  const DELIMITER: string := "$::_$"

  /** Distance between the client-id offsets of two injectors created in one call. */
  const ID_RANGE_STEPS: int := 1000

  const SERVER_HOST: string := "127.0.0.1"
  const SERVER_PORT: int := 5555
  const SOCKET_TIME_OUT: int := 30000

  /** The four communication scenarios (Config.MeasuringScenarios). */
  datatype Scenario = Connection | Send | Receive | SendReceive

  /** The scenario the load tester is configured with. */
  const MEASURING_TYPE: Scenario := Receive

  /** One write on a socket: opaque payload bytes, or text such as the delimiter. */
  datatype Chunk = Bytes(data: seq<bv8>) | Text(text: string)

  /** `token` occurs in `line` starting at position `i`. */
  predicate OccursAt(line: string, token: string, i: int)
  {
    0 <= i && i + |token| <= |line| && line[i..i + |token|] == token
  }

  /** `line.contains(token)` of Java / `indexOf(token) != -1` of JavaScript. */
  predicate Contains(line: string, token: string)
  {
    exists i | 0 <= i <= |line| :: OccursAt(line, token, i)
  }
}
