/** Names shared by the Kafka modules. */
module KafkaTypes {
  datatype TopicPartition = TopicPartition(topic: string, partition: int)
}
