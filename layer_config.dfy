/** Description of one layer, fixed once the network is built. */
module LayerConfigs {
  import opened Activations

  /** One layer's shape and training constants: its neuron count `N`, the previous
      layer's neuron count `P` (the layer's input size), the learning rate, the momentum
      coefficient and the activation its neurons use. */
  datatype LayerConfig = LayerConfig(
    numberOfNeurons: nat,
    numberOfNeuronsPreviousLayer: nat,
    learningRate: real,
    momentum: real,
    activationFunction: Activation)
}
